/** Handling a stored line once more. The live caller applies a line before it stores it, so a
    snapshot taken with a line contains it already and the replay handles it again: that leaves the
    view alone for every stored line but a NICK line that really changes a nick, and the whole state
    for every other line but a channel MODE. `Settling` adds the lists a MODE changes. */
module Repeats {
  import opened Base
  import opened Casemap
  import opened Info
  import opened Line
  import opened State
  import opened Handlers
  import opened Modes
  import opened Unique
  import opened Names
  import opened Seating
  import opened Occupancy
  import opened Views
  import opened LogFiles
  import opened Linestack
  import opened Replay

  type Halls = map<string, set<string>>

  // ------------------------------------------------------------------------------ PART

  /** Leaving again would change nothing. */
  predicate Apart(m: Halls, c: string, n: string, me: bool) { c !in m || (!me && n !in m[c]) }

  lemma LeavingApart(m: Halls, c: string, n: string, me: bool, c2: string, n2: string, me2: bool)
    ensures Apart(Left(m, c, n, me), c, n, me)
    ensures Apart(m, c, n, me) ==> Apart(Left(m, c2, n2, me2), c, n, me)
  {}

  predicate ApartFrom(s: Net, name: string, nick: string)
    requires Sound(s)
  {
    Apart(Rooms(s), Key(s, name), Key(s, StripPrefix(s.info, nick)), Key(s, nick) == MeKey(s))
  }

  lemma PartAgain(s: Net, name: string, nick: string)
    requires Sound(s) && Distinct(s) && ApartFrom(s, name, nick)
    ensures PartOne(s, name, nick) == s
  {
    hide Distinct, Rooms, DropMember, DropChan, IsMe;
    KnownKey(s, name);
    IsMeKey(s, nick);
    var i := FindChan(s, name);
    if i < |s.channels| { FoundIffSeated(s, i, nick); }
  }

  lemma PartAllAgain(s: Net, names: seq<string>, nick: string)
    requires Sound(s) && Distinct(s) && forall k :: 0 <= k < |names| ==> ApartFrom(s, names[k], nick)
    ensures PartAll(s, names, nick) == s
    decreases |names|
  {
    hide Sound, Distinct, ApartFrom, PartOne;
    if names != [] {
      PartAgain(s, names[0], nick);
      PartAllAgain(s, names[1..], nick);
    }
  }

  /** Whoever has left stays out while leaving more channels. */
  lemma {:induction false} PartAllApart(s: Net, done: seq<string>, names: seq<string>, nick: string)
    requires Sound(s) && Distinct(s) && forall k :: 0 <= k < |done| ==> ApartFrom(s, done[k], nick)
    ensures var r := PartAll(s, names, nick);
            Distinct(r) && forall k :: 0 <= k < |done + names| ==> ApartFrom(r, (done + names)[k], nick)
    decreases |names|
  {
    hide Sound, Distinct, PartOne, Apart, Rooms, Left;
    if names == [] {
      assert done + names == done;
    } else {
      var r, more := PartOne(s, names[0], nick), done + [names[0]];
      PartRooms(s, names[0], nick);
      forall k | 0 <= k < |more|
        ensures ApartFrom(r, more[k], nick)
      {
        var n, me := Key(s, StripPrefix(s.info, nick)), Key(s, nick) == MeKey(s);
        LeavingApart(Rooms(s), Key(s, more[k]), n, me, Key(s, names[0]), n, me);
      }
      PartAllApart(r, more, names[1..], nick);
      assert more + names[1..] == done + names;
    }
  }

  lemma PartTwice(s: Net, names: seq<string>, nick: string)
    requires Sound(s) && Distinct(s)
    ensures PartAll(PartAll(s, names, nick), names, nick) == PartAll(s, names, nick)
  {
    hide Sound, Distinct, ApartFrom, PartAll;
    PartAllApart(s, [], names, nick);
    assert [] + names == names;
    PartAllAgain(PartAll(s, names, nick), names, nick);
  }

  // ------------------------------------------------------------------------------ KICK

  predicate OutOf(s: Net, name: string, nick: string)
    requires Sound(s)
  {
    Key(s, name) !in Rooms(s) || Key(s, StripPrefix(s.info, nick)) !in Rooms(s)[Key(s, name)]
  }

  lemma KickAgain(s: Net, name: string, nick: string)
    requires Sound(s) && Distinct(s) && OutOf(s, name, nick)
    ensures KickOne(s, name, nick) == s
  {
    hide Distinct, Rooms, DropMember, DropChan, IsMe;
    KnownKey(s, name);
    var i := FindChan(s, name);
    if i < |s.channels| { FoundIffSeated(s, i, nick); }
  }

  lemma {:induction false} KickAllAgain(s: Net, names: seq<string>, nicks: seq<string>)
    requires Sound(s) && Distinct(s) && forall k :: 0 <= k < |names| && k < |nicks| ==> OutOf(s, names[k], nicks[k])
    ensures KickAll(s, names, nicks) == s
    decreases |names|
  {
    hide Sound, Distinct, OutOf, KickOne;
    if names != [] && nicks != [] {
      KickAgain(s, names[0], nicks[0]);
      assert forall k :: 0 <= k < |names[1..]| && k < |nicks[1..]| ==> OutOf(s, names[1..][k], nicks[1..][k]);
      KickAllAgain(s, names[1..], nicks[1..]);
    }
  }

  lemma KickOnceOut(s: Net, name: string, nick: string, c: string, k: string)
    requires Sound(s) && Distinct(s)
    ensures OutOf(KickOne(s, name, nick), name, nick)
    ensures OutOf(s, c, k) ==> OutOf(KickOne(s, name, nick), c, k)
  {
    hide Sound, Distinct, Rooms, KickOne;
    KickRooms(s, name, nick);
  }

  lemma {:induction false} KickAllOut(s: Net, names: seq<string>, nicks: seq<string>, c: string, k: string)
    requires Sound(s) && Distinct(s)
    ensures var r := KickAll(s, names, nicks);
            && Distinct(r) && (OutOf(s, c, k) ==> OutOf(r, c, k))
            && forall x :: 0 <= x < |names| && x < |nicks| ==> OutOf(r, names[x], nicks[x])
    decreases |names|
  {
    hide Sound, Distinct, OutOf, KickOne;
    if names != [] && nicks != [] {
      var s1 := KickOne(s, names[0], nicks[0]);
      KickOnceOut(s, names[0], nicks[0], c, k);
      PartOneKeeps(s, names[0], nicks[0]);
      KickAllOut(s1, names[1..], nicks[1..], c, k);
      KickAllOut(s1, names[1..], nicks[1..], names[0], nicks[0]);
      var r := KickAll(s, names, nicks);
      forall x | 0 <= x < |names| && x < |nicks|
        ensures OutOf(r, names[x], nicks[x])
      {
        if x > 0 { assert names[x] == names[1..][x - 1] && nicks[x] == nicks[1..][x - 1]; }
      }
    }
  }

  lemma KickTwice(s: Net, names: seq<string>, nicks: seq<string>)
    requires Sound(s) && Distinct(s)
    ensures KickAll(KickAll(s, names, nicks), names, nicks) == KickAll(s, names, nicks)
  {
    hide Sound, Distinct, OutOf, KickAll;
    KickAllOut(s, names, nicks, "", "");
    KickAllAgain(KickAll(s, names, nicks), names, nicks);
  }

  // ------------------------------------------------------------------------------ QUIT

  lemma QuitTwice(s: Net, nick: string)
    requires Sound(s) && Distinct(s)
    ensures Quit(Quit(s, nick), nick) == Quit(s, nick)
  {
    var k, r := FindPerson(s, nick), Quit(s, nick);
    var a, b := PeopleNames(s.people), PeopleNames(r.people);
    if k == 0 {
      assert FindPerson(r, nick) == 0;
      LeaveAllDone(r, 0);
    } else if k < |s.people| {
      hide LeaveAll;
      assert r.people == Without(s.people, k);
      forall x | 0 <= x < |b|
        ensures !Same(s.info.casemapping, b[x], nick)
      {
        var y := if x < k then x else x + 1;
        assert b[x] == a[y] && Same(s.info.casemapping, a[k], nick);
        assert !Same(s.info.casemapping, a[if y < k then y else k], a[if y < k then k else y]);
      }
    }
  }

  // ------------------------------------------------------------------------------ JOIN

  /** On the channel, with the hostmask it came with. */
  predicate Arrived(s: Net, name: string, origin: string)
    requires Sound(s) && '!' in origin
  {
    var i := FindChan(s, name);
    && i < |s.channels|
    && var j := FindMember(s, i, NickPart(origin));
       j < |s.channels[i].members| && var n := s.people[s.channels[i].members[j].who]; SetHostmask(n, origin) == n
  }

  lemma HostmaskTwice(n: Nick, mask: string)
    requires '!' in mask
    ensures SetHostmask(SetHostmask(n, mask), mask) == SetHostmask(n, mask)
  {}

  lemma JoinAgain(s: Net, name: string, origin: string)
    requires Sound(s) && '!' in origin && !HasPrefix(s.info, NickPart(origin)) && Arrived(s, name, origin)
    ensures OnePrefix(s.info, NickPart(origin)) && JoinOne(s, name, origin) == s
  {
    hide SetHostmask;
    var i := FindChan(s, name);
    var k := s.channels[i].members[FindMember(s, i, NickPart(origin))].who;
    assert s.people[k := s.people[k]] == s.people;
  }

  lemma JoinArrives(s: Net, name: string, origin: string)
    requires Sound(s) && '!' in origin && !HasPrefix(s.info, NickPart(origin))
    ensures OnePrefix(s.info, NickPart(origin)) && Arrived(JoinOne(s, name, origin), name, origin)
  {
    hide SetHostmask, AddMember;
    var nick, s1, i := NickPart(origin), AddChan(s, name), FindChan(s, name);
    AddChanFinds(s, name);
    AddMemberKeeps(s1, i, nick);
    AddMemberFinds(s1, i, nick);
    var s2, j := AddMember(s1, i, nick), FindMember(s1, i, nick);
    var k := s2.channels[i].members[j].who;
    HostmaskTwice(s2.people[k], origin);
    HostmaskRespells(s2.people[k], origin);
    var r := JoinOne(s, name, origin);
    RespeltFinds(s2, k, SetHostmask(s2.people[k], origin), i, name, nick);
  }

  lemma AddChanFinds(s: Net, name: string)
    ensures FindChan(AddChan(s, name), name) == FindChan(s, name)
  {
    var r := AddChan(s, name);
    if !KnownChan(s, name) {
      var a, b := ChanNames(s.channels), ChanNames(r.channels);
      assert b == a + [name] && b[|a|] == name;
      assert forall x :: 0 <= x < |a| ==> b[x] == a[x];
    }
  }

  lemma AddMemberFinds(s: Net, i: nat, nick: string)
    requires Sound(s) && i < |s.channels| && !HasPrefix(s.info, nick)
    ensures var r := AddMember(s, i, nick);
            && FindMember(r, i, nick) == FindMember(s, i, nick)
            && ChanNames(r.channels) == ChanNames(s.channels)
  {
    hide Same, Sound, FindPerson, HasPrefix, ChanNames;
    AddMemberData(s, i, nick);
    if FindMember(s, i, nick) == |s.channels[i].members| {
      NewMemberIs(s, i, nick);
      hide AddMember;
      FoundBehind(s, AddMember(s, i, nick), i, nick);
    }
  }

  /** A new member comes last, and nobody known changes. */
  lemma NewMemberIs(s: Net, i: nat, nick: string)
    requires Sound(s) && i < |s.channels| && !HasPrefix(s.info, nick)
    requires FindMember(s, i, nick) == |s.channels[i].members|
    ensures var r := AddMember(s, i, nick);
            && |s.people| <= |r.people| && r.people[..|s.people|] == s.people && r.info == s.info
            && |r.channels[i].members| == |s.channels[i].members| + 1
            && r.channels[i].members[..|s.channels[i].members|] == s.channels[i].members
            && r.channels[i].members[|s.channels[i].members|].who == FindPerson(s, nick) < |r.people|
            && Eq(s.info, r.people[FindPerson(s, nick)].nick, nick)
  {
    hide Same, Sound, FindMember;
    AddPersonKeeps(s, nick);
  }

  lemma FoundBehind(s: Net, r: Net, i: nat, nick: string)
    requires Sound(s) && Sound(r) && i < |s.channels| && i < |r.channels| && !HasPrefix(s.info, nick)
    requires r.info == s.info && |s.people| <= |r.people| && r.people[..|s.people|] == s.people
    requires var a, b := s.channels[i].members, r.channels[i].members;
             && |b| == |a| + 1 && b[..|a|] == a && FindMember(s, i, nick) == |a|
             && b[|a|].who < |r.people| && Eq(s.info, r.people[b[|a|].who].nick, nick)
    ensures FindMember(r, i, nick) == |s.channels[i].members|
  {
    hide Same;
    var ms, next := s.channels[i].members, r.channels[i].members;
    var a, b := MemberNames(s.people, ms), MemberNames(r.people, next);
    forall x | 0 <= x < |a|
      ensures b[x] == a[x]
    {
      assert next[x] == next[..|ms|][x] == ms[x];
      assert r.people[ms[x].who] == r.people[..|s.people|][ms[x].who];
    }
    assert Same(s.info.casemapping, b[|a|], nick);
  }

  /** A new spelling of somebody's nick finds everybody where they were. */
  lemma RespeltFinds(s: Net, k: nat, n: Nick, i: nat, name: string, nick: string)
    requires Sound(s) && k < |s.people| && Eq(s.info, s.people[k].nick, n.nick) && (k == 0 ==> n.query)
    requires i < |s.channels|
    ensures var r := WithPerson(s, k, n);
            FindChan(r, name) == FindChan(s, name) && FindMember(r, i, nick) == FindMember(s, i, nick)
  {
    var r, ms := WithPerson(s, k, n), s.channels[i].members;
    var a, b := MemberNames(s.people, ms), MemberNames(r.people, ms);
    FirstMatchSame(s.info.casemapping, a, b, StripPrefix(s.info, nick));
  }

  lemma {:induction false} FirstMatchSame(cm: Casemapping, a: seq<string>, b: seq<string>, name: string)
    requires |a| == |b| && forall x :: 0 <= x < |a| ==> Same(cm, a[x], b[x])
    ensures FirstMatch(cm, a, name) == FirstMatch(cm, b, name)
  {
    if a != [] { FirstMatchSame(cm, a[1..], b[1..], name); }
  }

  /** Joining one more channel leaves the others joined. */
  lemma JoinKeepsArrived(s: Net, name: string, other: string, origin: string)
    requires Sound(s) && Distinct(s) && '!' in origin && !HasPrefix(s.info, NickPart(origin))
    requires Arrived(s, name, origin)
    ensures OnePrefix(s.info, NickPart(origin)) && Arrived(JoinOne(s, other, origin), name, origin)
  {
    var nick := NickPart(origin);
    var i := FindChan(s, name);
    var j := FindMember(s, i, nick);
    var k := s.channels[i].members[j].who;
    assert Same(s.info.casemapping, MemberNames(s.people, s.channels[i].members)[j], nick);
    PersonIsFound(s, k, nick);
    JoinKnown(s, other, origin, k);
    JoinKnownKeeps(s, other, origin, k, i, name);
  }

  /** Somebody known who joins with the hostmask already known: only the channel changes. */
  lemma JoinKnown(s: Net, other: string, origin: string, k: nat)
    requires Sound(s) && Distinct(s) && '!' in origin && !HasPrefix(s.info, NickPart(origin))
    requires k == FindPerson(s, NickPart(origin)) < |s.people| && SetHostmask(s.people[k], origin) == s.people[k]
    ensures OnePrefix(s.info, NickPart(origin))
    ensures JoinOne(s, other, origin) == AddMember(AddChan(s, other), FindChan(s, other), NickPart(origin))
  {
    hide SetHostmask, Distinct;
    var nick, s1, i := NickPart(origin), AddChan(s, other), FindChan(s, other);
    AddChanKeeps(s, other);
    var s2, j := AddMember(s1, i, nick), FindMember(s1, i, nick);
    AddMemberKeeps(s1, i, nick);
    AddMemberKeeps2(s1, i, nick);
    PersonIsFound(s2, s2.channels[i].members[j].who, nick) by { DistinctPeople(s2); }
    assert s2.people[k := s2.people[k]] == s2.people;
  }

  lemma AddMemberKeeps2(s: Net, i: nat, nick: string)
    requires Sound(s) && i < |s.channels| && !HasPrefix(s.info, nick) && KnownPerson(s, nick)
    ensures AddMember(s, i, nick).people == s.people
  {}

  /** Where the channel is found with the same members, somebody arrived is still there. */
  lemma ArrivedThere(s: Net, r: Net, i: nat, name: string, origin: string)
    requires Sound(s) && Sound(r) && '!' in origin && Arrived(s, name, origin)
    requires i == FindChan(s, name) == FindChan(r, name) && i < |r.channels| && r.people == s.people && r.info == s.info
    requires i < |s.channels| && r.channels[i].members == s.channels[i].members
    ensures Arrived(r, name, origin)
  {
    hide SetHostmask, FindChan;
    assert MemberNames(r.people, r.channels[i].members) == MemberNames(s.people, s.channels[i].members);
  }

  lemma JoinKnownKeeps(s: Net, other: string, origin: string, k: nat, i: nat, name: string)
    requires Sound(s) && '!' in origin && !HasPrefix(s.info, NickPart(origin)) && KnownPerson(s, NickPart(origin))
    requires i == FindChan(s, name) < |s.channels| && Arrived(s, name, origin)
    ensures OnePrefix(s.info, NickPart(origin))
    ensures Arrived(AddMember(AddChan(s, other), FindChan(s, other), NickPart(origin)), name, origin)
  {
    hide SetHostmask, Same, Arrived;
    var nick, s1, c := NickPart(origin), AddChan(s, other), FindChan(s, other);
    var r := AddMember(s1, c, nick);
    ChanStaysFound(s, other, name);
    AddMemberKeeps2(s1, c, nick);
    AddMemberFinds(s1, c, nick);
    ArrivedThere(s, s1, i, name, origin);
    if c == i {
      AlreadyThere(s1, i, name, origin);
    } else {
      OtherChannel(s1, c, nick, i);
      ArrivedThere(s1, r, i, name, origin);
    }
  }

  lemma AlreadyThere(s: Net, i: nat, name: string, origin: string)
    requires Sound(s) && '!' in origin && !HasPrefix(s.info, NickPart(origin)) && i == FindChan(s, name)
    requires Arrived(s, name, origin)
    ensures i < |s.channels| && OnePrefix(s.info, NickPart(origin)) && AddMember(s, i, NickPart(origin)) == s
  {
    hide SetHostmask;
  }

  lemma OtherChannel(s: Net, c: nat, nick: string, i: nat)
    requires Sound(s) && c < |s.channels| && i < |s.channels| && i != c && !HasPrefix(s.info, nick)
    ensures AddMember(s, c, nick).channels[i] == s.channels[i]
  {}

  lemma ChanStaysFound(s: Net, other: string, name: string)
    requires KnownChan(s, name)
    ensures var r := AddChan(s, other);
            && FindChan(r, name) == FindChan(s, name) && r.people == s.people
            && r.channels[FindChan(s, name)] == s.channels[FindChan(s, name)]
  {
    var a, b := ChanNames(s.channels), ChanNames(AddChan(s, other).channels);
    assert forall x :: 0 <= x < |a| ==> b[x] == a[x];
  }

  lemma {:induction false} JoinAllAgain(s: Net, names: seq<string>, origin: string)
    requires Sound(s) && '!' in origin && !HasPrefix(s.info, NickPart(origin))
    requires forall k :: 0 <= k < |names| ==> Arrived(s, names[k], origin)
    ensures OnePrefix(s.info, NickPart(origin)) && JoinAll(s, names, origin) == s
    decreases |names|
  {
    hide Sound, Arrived, JoinOne, HasPrefix;
    OnePrefixIs(s.info, NickPart(origin));
    if names != [] {
      JoinAgain(s, names[0], origin);
      JoinAllAgain(s, names[1..], origin);
    }
  }

  lemma OnePrefixIs(info: Info, nick: string)
    requires !HasPrefix(info, nick)
    ensures OnePrefix(info, nick)
  {}

  lemma {:induction false} JoinAllArrives(s: Net, done: seq<string>, names: seq<string>, origin: string)
    requires Sound(s) && Distinct(s) && '!' in origin && !HasPrefix(s.info, NickPart(origin))
    requires forall k :: 0 <= k < |done| ==> Arrived(s, done[k], origin)
    ensures OnePrefix(s.info, NickPart(origin))
    ensures var r := JoinAll(s, names, origin);
            forall k :: 0 <= k < |done + names| ==> Arrived(r, (done + names)[k], origin)
    decreases |names|
  {
    hide Sound, Distinct, Arrived, JoinOne, HasPrefix;
    OnePrefixIs(s.info, NickPart(origin));
    if names == [] {
      assert done + names == done;
    } else {
      var r, more := JoinOne(s, names[0], origin), done + [names[0]];
      JoinArrives(s, names[0], origin);
      JoinOneKeeps(s, names[0], origin);
      forall k | 0 <= k < |done|
        ensures Arrived(r, done[k], origin)
      {
        JoinKeepsArrived(s, done[k], names[0], origin);
      }
      JoinAllArrives(r, more, names[1..], origin);
      assert more + names[1..] == done + names;
    }
  }

  lemma JoinTwice(s: Net, names: seq<string>, origin: string)
    requires Sound(s) && Distinct(s) && '!' in origin && !HasPrefix(s.info, NickPart(origin))
    ensures OnePrefix(s.info, NickPart(origin))
    ensures JoinAll(JoinAll(s, names, origin), names, origin) == JoinAll(s, names, origin)
  {
    hide Sound, Distinct, Arrived, JoinAll, HasPrefix;
    JoinAllArrives(s, [], names, origin);
    assert [] + names == names;
    JoinAllAgain(JoinAll(s, names, origin), names, origin);
  }

  // ------------------------------------------------------------------------------- 353

  predicate Named(s: Net, i: nat, name: string)
    requires Sound(s) && i < |s.channels|
  {
    name == "" || FindMember(s, i, StripPrefix(s.info, name)) < |s.channels[i].members|
  }

  lemma {:induction false} AddNamesAgain(s: Net, i: nat, names: seq<string>)
    requires Sound(s) && i < |s.channels| && AllOnePrefix(s.info, names) && forall k :: 0 <= k < |names| ==>
             Named(s, i, names[k])
    ensures AddNames(s, i, names) == s
    decreases |names|
  {
    hide Sound, OnePrefix;
    if names != [] { AddNamesAgain(s, i, names[1..]); }
  }

  lemma AddMemberNames(s: Net, i: nat, name: string, other: string)
    requires Sound(s) && i < |s.channels| && OnePrefix(s.info, name) && name != ""
    ensures Named(AddMember(s, i, name), i, name)
    ensures Named(s, i, other) ==> Named(AddMember(s, i, name), i, other)
  {
    var r, ms := AddMember(s, i, name), s.channels[i].members;
    AddMemberKeeps(s, i, name);
    var a, b := MemberNames(s.people, ms), MemberNames(r.people, r.channels[i].members);
    assert forall x :: 0 <= x < |a| ==> b[x] == a[x];
    var j := FindMember(s, i, StripPrefix(s.info, name));
    assert Same(s.info.casemapping, b[j], StripPrefix(s.info, name));
    if j < |a| { assert r == s; }
  }

  lemma {:induction false} AddNamesNames(s: Net, i: nat, done: seq<string>, names: seq<string>)
    requires Sound(s) && i < |s.channels| && AllOnePrefix(s.info, names) && forall k :: 0 <= k < |done| ==>
             Named(s, i, done[k])
    ensures var r := AddNames(s, i, names); forall k :: 0 <= k < |done + names| ==> Named(r, i, (done + names)[k])
    decreases |names|
  {
    hide Sound, OnePrefix, AddMember, FindMember;
    if names == [] {
      assert done + names == done;
    } else {
      var s1, more := if names[0] == "" then s else AddMember(s, i, names[0]), done + [names[0]];
      forall k | 0 <= k < |more|
        ensures Named(s1, i, more[k])
      {
        if names[0] != "" { AddMemberNames(s, i, names[0], more[k]); }
      }
      AddNamesNames(s1, i, more, names[1..]);
      assert more + names[1..] == done + names;
    }
  }

  lemma NamReplyTwice(s: Net, i: nat, mode: string, names: seq<string>)
    requires Sound(s) && i < |s.channels| && AllOnePrefix(s.info, names)
    ensures NamReply(NamReply(s, i, mode, names), i, mode, names) == NamReply(s, i, mode, names)
    ensures ChanNames(NamReply(s, i, mode, names).channels) == ChanNames(s.channels)
  {
    hide Sound, AllOnePrefix, AddNames, ClearMembers, Named;
    var o, r := OpenNames(s, i, mode), NamReply(s, i, mode, names);
    OpenSeries(s, i, mode);
    AddNamesData(o, i, names);
    AddNamesNames(o, i, [], names);
    assert [] + names == names;
    assert r.channels[i := r.channels[i]] == r.channels;
    assert OpenNames(r, i, mode) == r;
    AddNamesAgain(r, i, names);
  }

  lemma OpenSeries(s: Net, i: nat, mode: string)
    requires Sound(s) && i < |s.channels|
    ensures var o := OpenNames(s, i, mode);
            && o.channels[i].data.namreplyStarted && o.channels[i].data.mode == (if mode == "" then '\0' else mode[0])
            && ChanNames(o.channels) == ChanNames(s.channels)
  {
    hide ClearMembers;
    var s1 := WithChan(s, i, s.channels[i].data.(mode := if mode == "" then '\0' else mode[0]));
    ClearMembersData(s1, i);
    var o := OpenNames(s, i, mode);
    assert forall x :: 0 <= x < |s.channels| ==> ChanNames(s1.channels)[x] == ChanNames(s.channels)[x];
    assert forall x :: 0 <= x < |s.channels| ==> ChanNames(o.channels)[x] == ChanNames(s.channels)[x];
  }

  // ------------------------------------------------------------------------------ MODE

  /** What a mode letter can change: a flag or an option of the channel, or a flag of a member. */
  datatype Loc = Flag(letter: char) | Opt(letter: char) | MemberFlag(member: nat, letter: char)

  type Writes = map<Loc, Option<string>>

  function Value(s: Net, i: nat, at: Loc): (v: Option<string>)
    requires i < |s.channels|
  {
    var c := s.channels[i];
    match at
    case Flag(m) => if m in c.data.modes then Some("") else None
    case Opt(m) => if m in c.data.options then Some(c.data.options[m]) else None
    case MemberFlag(j, m) => if j < |c.members| && m in c.members[j].modes then Some("") else None
  }

  /** Two states that differ at most in what mode letters change, and in the lists. */
  predicate Frame(s: Net, t: Net, i: nat)
    requires i < |s.channels|
  {
    && t.info == s.info && t.people == s.people && |t.channels| == |s.channels|
    && (forall x :: 0 <= x < |s.channels| && x != i ==> t.channels[x] == s.channels[x])
    && SameFrame(s.channels[i], t.channels[i])
  }

  predicate SameFrame(c: Chan, d: Chan) {
    && d.data == c.data.(modes := d.data.modes, options := d.data.options, lists := d.data.lists)
    && |d.members| == |c.members|
    && forall j :: 0 <= j < |c.members| ==> d.members[j] == c.members[j].(modes := d.members[j].modes)
  }

  /** `r` is `s` with the writes made. */
  ghost predicate Wrote(s: Net, r: Net, i: nat, w: Writes)
    requires i < |s.channels|
  {
    Frame(s, r, i) && forall at: Loc :: Value(r, i, at) == if at in w then w[at] else Value(s, i, at)
  }

  function OnOff(on: bool): (v: Option<string>) { if on then Some("") else None }

  /** What one letter writes; None when it is refused. */
  function WriteOf(s: Net, i: nat, on: bool, m: char, arg: Option<string>): (w: Option<Writes>)
    requires Sound(s) && i < |s.channels| && ChanmodesOk(s.info)
  {
    match ChanmodeType(s.info, m)
    case ListMode => if arg.None? then None else Some(map[])
    case SettingMode => OptionWrite(on, m, arg)
    case OptSettingMode => OptionWrite(on, m, arg)
    case BoolMode => if IsPrefixMode(s.info, m) then SeatWrite(s, i, on, m, arg) else Some(map[Flag(m) := OnOff(on)])
    case UnknownMode => if IsPrefixMode(s.info, m) then SeatWrite(s, i, on, m, arg) else Some(map[])
  }

  function OptionWrite(on: bool, m: char, arg: Option<string>): (w: Option<Writes>) {
    if !on then Some(map[Opt(m) := None]) else if arg.None? then None else Some(map[Opt(m) := arg])
  }

  function SeatWrite(s: Net, i: nat, on: bool, m: char, arg: Option<string>): (w: Option<Writes>)
    requires Sound(s) && i < |s.channels|
  {
    if arg.None? || FindMember(s, i, arg.value) == |s.channels[i].members| then None
    else Some(map[MemberFlag(FindMember(s, i, arg.value), m) := OnOff(on)])
  }

  lemma OptionWrites(s: Net, i: nat, on: bool, m: char, arg: Option<string>)
    requires Sound(s) && i < |s.channels|
    ensures var c, w := ChangeOption(s, i, on, m, arg), OptionWrite(on, m, arg);
            (c.taken.None? <==> w.None?) && (w.Some? ==> Wrote(s, c.state, i, w.value))
  {
    hide Sound;
  }

  lemma SeatWrites(s: Net, i: nat, on: bool, m: char, arg: Option<string>)
    requires Sound(s) && i < |s.channels|
    ensures var c, w := ChangeMemberMode(s, i, on, m, arg), SeatWrite(s, i, on, m, arg);
            (c.taken.None? <==> w.None?) && (w.Some? ==> Wrote(s, c.state, i, w.value))
  {
    hide Sound, FindMember, Wrote, WithMembers, ToggleMode;
    if arg.Some? {
      var j := FindMember(s, i, arg.value);
      if j < |s.channels[i].members| { FlagOfMember(s, i, j, on, m); }
    }
  }

  lemma FlagOfMember(s: Net, i: nat, j: nat, on: bool, m: char)
    requires i < |s.channels| && j < |s.channels[i].members|
    ensures var ms := s.channels[i].members;
            Wrote(s, WithMembers(s, i, ms[j := ms[j].(modes := ToggleMode(ms[j].modes, on, m))]), i,
                  map[MemberFlag(j, m) := OnOff(on)])
  {
    var ms := s.channels[i].members;
    var r, w := WithMembers(s, i, ms[j := ms[j].(modes := ToggleMode(ms[j].modes, on, m))]),
        map[MemberFlag(j, m) := OnOff(on)];
    assert Frame(s, r, i);
    hide Frame;
    forall at: Loc
      ensures Value(r, i, at) == if at in w then w[at] else Value(s, i, at)
    {
      assert r.channels[i].data == s.channels[i].data;
    }
  }

  lemma ListWrites(s: Net, setter: Option<string>, i: nat, on: bool, m: char, arg: Option<string>, now: int)
    requires i < |s.channels|
    ensures var c := ChangeList(s, setter, i, on, m, arg, now);
            (c.taken.None? <==> arg.None?) && (arg.Some? ==> Wrote(s, c.state, i, map[]))
  {}

  lemma FlagWrites(s: Net, i: nat, on: bool, m: char)
    requires i < |s.channels|
    ensures var d := s.channels[i].data;
            Wrote(s, WithChan(s, i, d.(modes := ToggleMode(d.modes, on, m))), i, map[Flag(m) := OnOff(on)])
    ensures Wrote(s, s, i, map[])
  {}

  lemma ModeWrites(s: Net, setter: Option<string>, i: nat, on: bool, m: char, arg: Option<string>, now: int)
    requires Sound(s) && i < |s.channels| && ChanmodesOk(s.info)
    ensures var c, w := ChangeMode(s, setter, i, on, m, arg, now), WriteOf(s, i, on, m, arg);
            (c.taken.None? <==> w.None?) && (w.Some? ==> Wrote(s, c.state, i, w.value))
  {
    hide Sound, Wrote, ChangeList, ChangeOption, ChangeMemberMode, OptionWrite, SeatWrite, IsPrefixMode, ChanmodesOk;
    hide WithChan;
    OptionWrites(s, i, on, m, arg);
    SeatWrites(s, i, on, m, arg);
    ListWrites(s, setter, i, on, m, arg, now);
    FlagWrites(s, i, on, m);
  }

  lemma FrameWrites(s: Net, t: Net, i: nat, on: bool, m: char, arg: Option<string>)
    requires Sound(s) && Sound(t) && i < |s.channels| && ChanmodesOk(s.info) && Frame(s, t, i)
    ensures i < |t.channels| && ChanmodesOk(t.info) && WriteOf(t, i, on, m, arg) == WriteOf(s, i, on, m, arg)
  {
    assert MemberNames(t.people, t.channels[i].members) == MemberNames(s.people, s.channels[i].members);
    hide ChanmodesOk, IsPrefixMode, Sound;
  }

  /** The writes of a mode string, later ones last, up to the first letter refused. */
  function WritesOf(s: Net, i: nat, modes: string, args: seq<string>, arg: nat, on: bool): (w: Writes)
    requires Sound(s) && i < |s.channels| && ChanmodesOk(s.info)
    decreases |modes|
  {
    if modes == "" then map[]
    else if modes[0] == '+' then WritesOf(s, i, modes[1..], args, arg, true)
    else if modes[0] == '-' then WritesOf(s, i, modes[1..], args, arg, false)
    else
      var w := WriteOf(s, i, on, modes[0], Nth(args, arg));
      if w.None? then map[]
      else
        w.value + WritesOf(s, i, modes[1..], args, NextArgument(s.info, args, arg, on, modes[0]), on)
  }

  function NextArgument(info: Info, args: seq<string>, arg: nat, on: bool, m: char): (next: nat)
    requires ChanmodesOk(info)
  {
    if arg < |args| && TakesArgument(info, Signed(on, m)) then arg + 1 else arg
  }

  lemma WroteThen(s: Net, t: Net, r: Net, i: nat, x: Writes, y: Writes)
    requires i < |s.channels| && Wrote(s, t, i, x) && Wrote(t, r, i, y)
    ensures Wrote(s, r, i, x + y)
  {
    hide Value;
    assert SameFrame(s.channels[i], r.channels[i]);
  }

  lemma {:induction false} LoopWrites(s: Net, t: Net, setter: Option<string>, i: nat, modes: string, args: seq<string>,
                                      arg: nat, on: bool, now: int)
    requires Sound(s) && Sound(t) && i < |s.channels| && ChanmodesOk(s.info) && Frame(s, t, i)
    ensures i < |t.channels| && ChanmodesOk(t.info)
    ensures Wrote(t, ModeLoop(t, setter, i, modes, args, arg, on, now), i, WritesOf(s, i, modes, args, arg, on))
    decreases |modes|
  {
    hide Sound, ChangeMode, ChanmodesOk, Wrote, WriteOf, Frame, TakesArgument;
    FrameInfo(s, t, i);
    WroteNothing(t, i);
    if modes == "" {
    } else if modes[0] == '+' {
      LoopWrites(s, t, setter, i, modes[1..], args, arg, true, now);
    } else if modes[0] == '-' {
      LoopWrites(s, t, setter, i, modes[1..], args, arg, false, now);
    } else {
      var c := ChangeMode(t, setter, i, on, modes[0], Nth(args, arg), now);
      FrameWrites(s, t, i, on, modes[0], Nth(args, arg));
      ModeWrites(t, setter, i, on, modes[0], Nth(args, arg), now);
      ChangeTakesArity(t, setter, i, Signed(on, modes[0]), Nth(args, arg), now);
      if c.taken.Some? {
        var w := WriteOf(s, i, on, modes[0], Nth(args, arg)).value;
        FrameThen(s, t, c.state, i, w);
        var next := NextArgument(s.info, args, arg, on, modes[0]);
        LoopWrites(s, c.state, setter, i, modes[1..], args, next, on, now);
        WroteThen(t, c.state, ModeLoop(c.state, setter, i, modes[1..], args, next, on, now), i, w,
                  WritesOf(s, i, modes[1..], args, next, on));
      }
    }
  }

  lemma FrameInfo(s: Net, t: Net, i: nat)
    requires i < |s.channels| && Frame(s, t, i)
    ensures t.info == s.info && |t.channels| == |s.channels|
  {}

  lemma WroteNothing(s: Net, i: nat)
    requires i < |s.channels|
    ensures Wrote(s, s, i, map[]) && Frame(s, s, i)
  {}

  lemma FrameThen(s: Net, t: Net, r: Net, i: nat, w: Writes)
    requires i < |s.channels| && Frame(s, t, i) && Wrote(t, r, i, w)
    ensures Frame(s, r, i)
  {
    hide Value;
    assert SameFrame(s.channels[i], r.channels[i]);
  }

  /** The same values everywhere: the same view. */
  lemma SameValuesAlike(s: Net, r: Net, i: nat)
    requires i < |s.channels| && Frame(s, r, i) && forall at: Loc :: Value(r, i, at) == Value(s, i, at)
    ensures Alike(r, s)
  {
    var c, d := s.channels[i], r.channels[i];
    assert d.data.modes == c.data.modes by {
      forall m: char ensures m in d.data.modes <==> m in c.data.modes {
        assert Value(r, i, Flag(m)) == Value(s, i, Flag(m));
      }
    }
    assert d.data.options == c.data.options by {
      forall m: char
        ensures (m in d.data.options <==> m in c.data.options)
        ensures (m in c.data.options ==> d.data.options[m] == c.data.options[m])
      {
        assert Value(r, i, Opt(m)) == Value(s, i, Opt(m));
      }
    }
    forall j | 0 <= j < |c.members|
      ensures d.members[j].modes == c.members[j].modes
    {
      forall m: char ensures m in d.members[j].modes <==> m in c.members[j].modes {
        assert Value(r, i, MemberFlag(j, m)) == Value(s, i, MemberFlag(j, m));
      }
    }
    forall x | 0 <= x < |s.channels|
      ensures ViewChan(r.channels[x]) == ViewChan(s.channels[x])
    {
      AlikeChan(r.channels[x], s.channels[x]);
    }
    AlikeBy(r, s);
  }

  /** A mode string once more writes what is already there. */
  lemma ModesTwice(s: Net, setter: Option<string>, i: nat, modes: string, args: seq<string>, now: int)
    requires Sound(s) && i < |s.channels| && ChanmodesOk(s.info)
    ensures var r := ModeLoop(s, setter, i, modes, args, 3, true, now);
            Frame(s, r, i) && Alike(ModeLoop(r, setter, i, modes, args, 3, true, now), r)
  {
    hide Sound, ModeLoop, ChanmodesOk, WritesOf, Value, Frame;
    var r, w := ModeLoop(s, setter, i, modes, args, 3, true, now), WritesOf(s, i, modes, args, 3, true);
    WroteNothing(s, i);
    LoopWrites(s, s, setter, i, modes, args, 3, true, now);
    LoopWrites(s, r, setter, i, modes, args, 3, true, now);
    SameValuesAlike(r, ModeLoop(r, setter, i, modes, args, 3, true, now), i);
  }

  /** The letters a user-mode string touches. */
  function Touched(text: string): (r: set<char>) { set c | c in text && c != '+' && c != '-' }

  lemma {:induction false} UserModesIs(modes: set<char>, text: string, on: bool)
    ensures UserModes(modes, text, on) == (modes - Touched(text)) + UserModes({}, text, on)
    ensures UserModes({}, text, on) <= Touched(text)
    decreases |text|
  {
    if text != "" {
      var rest := text[1..];
      assert text == [text[0]] + rest;
      if text[0] == '+' {
        assert Touched(text) == Touched(rest);
        UserModesIs(modes, rest, true);
      } else if text[0] == '-' {
        assert Touched(text) == Touched(rest);
        UserModesIs(modes, rest, false);
      } else {
        assert Touched(text) == {text[0]} + Touched(rest);
        UserModesIs(ToggleMode(modes, on, text[0]), rest, on);
        UserModesIs(ToggleMode({}, on, text[0]), rest, on);
      }
    }
  }

  lemma UserModesTwice(modes: set<char>, text: string)
    ensures UserModes(UserModes(modes, text, true), text, true) == UserModes(modes, text, true)
  {
    UserModesIs(modes, text, true);
    UserModesIs(UserModes(modes, text, true), text, true);
  }

  // -------------------------------------------------------------------- all stored lines

  /** A NICK line that is about to take effect. */
  predicate Renames(s: Net, l: Line) {
    CommandOf(l) == NICK && Complete(l) && l.origin.Some? && !Eq(s.info, NickPart(l.origin.value), l.args[1])
  }

  predicate PlainJoin(s: Net, l: Line) {
    CommandOf(l) == JOIN && Complete(l) && l.origin.Some? ==> !HasPrefix(s.info, NickPart(l.origin.value))
  }

  lemma MemberTwice(s: Net, l: Line, now: int)
    requires Sound(s) && Distinct(s) && Accepts(s, l) && Complete(l) && IsMemberLine(CommandOf(l))
    requires CommandOf(l) != N352 && PlainJoin(s, l)
    ensures var r := MemberStep(s, l, now); Accepts(r, l) && MemberStep(r, l, now) == r
  {
    hide Sound, Distinct, JoinAll, PartAll, KickAll, Quit, NamReply, CommandNamed, HasPrefix, OnePrefix;
    var a, r := l.args, MemberStep(s, l, now);
    match CommandOf(l) {
      case JOIN => if l.origin.Some? { JoinTwice(s, StrSplit(a[1], ','), l.origin.value); }
      case PART => if l.origin.Some? { PartTwice(s, StrSplit(a[1], ','), NickPart(l.origin.value)); }
      case KICK => if l.origin.Some? { KickTwice(s, StrSplit(a[1], ','), StrSplit(a[2], ',')); }
      case QUIT => if l.origin.Some? { QuitTwice(s, NickPart(l.origin.value)); }
      case N353 =>
        if KnownChan(s, a[3]) {
          NamReplyTwice(s, FindChan(s, a[3]), a[2], StrSplit(a[4], ' '));
          assert FindChan(r, a[3]) == FindChan(s, a[3]);
        }
    }
  }

  lemma ModeTwice(s: Net, l: Line, now: int)
    requires Sound(s) && Accepts(s, l) && Complete(l) && CommandOf(l) == MODE
    ensures var r := ModeLine(s, l, now); Accepts(r, l) && Alike(ModeLine(r, l, now), r)
  {
    hide Sound, CommandNamed, ModeLoop, ChanmodesOk, Alike, HasPrefix;
    AlikeRefl(s);
    var r := ModeLine(s, l, now);
    if IsChannelName(s.info, l.args[1]) {
      var i := FindChan(s, l.args[1]);
      if i < |s.channels| {
        var setter := SetterOf(s, NickPart(l.origin.value));
        ModesTwice(s, setter, i, l.args[2], l.args, now);
        assert ChanNames(r.channels) == ChanNames(s.channels) && r.people == s.people;
      }
    } else {
      var k, s1 := FindPerson(s, l.args[1]), AddPerson(s, l.args[1]);
      assert PeopleNames(r.people) == PeopleNames(s1.people);
      AddedIsFound(s, l.args[1]);
      UserModesTwice(s1.people[k].modes, l.args[2]);
      assert r.people[k := r.people[k]] == r.people;
      AlikeRefl(r);
    }
  }

  /** A stored line handled twice leaves the same view, exactly when it is not a NICK line that takes
      effect; and the same state, list entries included, unless it is a channel MODE line. */
  lemma ViewTwiceIff(s: Net, l: Line, now: int)
    requires Sound(s) && Distinct(s) && Accepts(s, l) && IsStored(CommandOf(l)) && PlainJoin(s, l)
    ensures Idempotent(Step(s, l, now), l, now) <==> !Renames(s, l)
    ensures var r := Step(s, l, now); CommandOf(l) != MODE && Idempotent(r, l, now) ==> Step(r, l, now) == r
  {
    hide Sound, Distinct, CommandNamed, DataStep, MemberStep, ModeLine, Alike, Accepts, Eq, HasPrefix;
    AlikeRefl(Step(s, l, now));
    if !Complete(l) {
    } else if IsDataLine(CommandOf(l)) {
      DataIsIdempotent(s, l, now);
    } else if IsMemberLine(CommandOf(l)) {
      MemberTwice(s, l, now);
    } else if CommandOf(l) == MODE {
      ModeTwice(s, l, now);
      assert Step(s, l, now) == ModeLine(s, l, now);
    } else if CommandOf(l) == NICK {
      if l.origin.Some? { NickIsIdempotentIff(s, l, now); }
    } else {
      MessageIsIdempotent(s, l, now);
    }
  }
}
