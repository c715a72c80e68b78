/** Two invariants of whole runs: no two channels, no two people and no two members of a
    channel have names the casemapping identifies, and every known hostmask starts with its
    owner's nick. */
module Unique {
  import opened Base
  import opened Casemap
  import opened Info
  import opened Isupport
  import opened Line
  import opened State
  import opened Handlers

  predicate DistinctNames(cm: Casemapping, names: seq<string>) {
    forall i, j :: 0 <= i < j < |names| ==> !Same(cm, names[i], names[j])
  }

  /** No two channels and no two people have the same name. */
  predicate Distinct(s: Net) {
    && DistinctNames(s.info.casemapping, PeopleNames(s.people))
    && DistinctNames(s.info.casemapping, ChanNames(s.channels))
  }

  predicate MaskOk(n: Nick) { n.hostmask.Some? ==> '!' in n.hostmask.value && NickPart(n.hostmask.value) == n.nick }

  /** The hostmask of everybody but `me` starts with the nick it belongs to. */
  predicate MasksOk(s: Net) { forall k :: 1 <= k < |s.people| ==> MaskOk(s.people[k]) }

  /** Nobody but the `k`-th person is called `name`. */
  predicate Fresh(s: Net, k: nat, name: string) {
    forall x :: 0 <= x < |s.people| && x != k ==> !Eq(s.info, s.people[x].nick, name)
  }

  // ----------------------------------------------------------------- consequences

  lemma DistinctPeople(s: Net)
    requires Distinct(s)
    ensures DistinctNames(s.info.casemapping, PeopleNames(s.people))
  {}

  /** A name has at most one owner, and find_network_nick finds it. */
  lemma PersonIsFound(s: Net, k: nat, name: string)
    requires DistinctNames(s.info.casemapping, PeopleNames(s.people)) && k < |s.people|
    requires Eq(s.info, s.people[k].nick, name)
    ensures FindPerson(s, name) == k
  {
    var names, f := PeopleNames(s.people), FindPerson(s, name);
    assert Same(s.info.casemapping, names[f], names[k]);
  }

  lemma MemberIsFound(s: Net, i: nat, j: nat, name: string)
    requires Sound(s) && Distinct(s) && i < |s.channels| && j < |s.channels[i].members|
    requires Eq(s.info, s.people[s.channels[i].members[j].who].nick, StripPrefix(s.info, name))
    ensures FindMember(s, i, name) == j
  {
    var ms, f := s.channels[i].members, FindMember(s, i, name);
    var names, all := MemberNames(s.people, ms), PeopleNames(s.people);
    assert Same(s.info.casemapping, names[f], names[j]);
    assert all[ms[f].who] == names[f] && all[ms[j].who] == names[j];
  }

  /** No two members of a channel have the same name. */
  lemma MembersDistinct(s: Net, i: nat)
    requires Sound(s) && Distinct(s) && i < |s.channels|
    ensures DistinctNames(s.info.casemapping, MemberNames(s.people, s.channels[i].members))
  {
    var ms := s.channels[i].members;
    var names, all := MemberNames(s.people, ms), PeopleNames(s.people);
    forall a, b | 0 <= a < b < |names|
      ensures !Same(s.info.casemapping, names[a], names[b])
    {
      assert all[ms[a].who] == names[a] && all[ms[b].who] == names[b];
    }
  }

  // ------------------------------------------------------------ what operations keep

  /** Both invariants survive the change from `s` to `r`. */
  predicate Keeps(s: Net, r: Net) {
    && r.info == s.info
    && (Distinct(s) ==> Distinct(r))
    && (MasksOk(s) ==> MasksOk(r))
  }

  lemma SameNamesKeep(s: Net, r: Net)
    requires r.info == s.info && r.people == s.people && |r.channels| == |s.channels|
    requires forall i :: 0 <= i < |s.channels| ==> r.channels[i].data.name == s.channels[i].data.name
    ensures Keeps(s, r)
  {
    assert ChanNames(r.channels) == ChanNames(s.channels);
  }

  lemma AddChanKeeps(s: Net, name: string)
    ensures Keeps(s, AddChan(s, name))
  {
    var r := AddChan(s, name);
    if !KnownChan(s, name) {
      assert ChanNames(r.channels) == ChanNames(s.channels) + [name];
    }
  }

  lemma AddPersonKeeps(s: Net, name: string)
    ensures Keeps(s, AddPerson(s, name))
    ensures Eq(s.info, AddPerson(s, name).people[FindPerson(s, name)].nick, name)
  {
    var r := AddPerson(s, name);
    if !KnownPerson(s, name) {
      assert PeopleNames(r.people) == PeopleNames(s.people) + [name];
    }
    assert PeopleNames(s.people) == PeopleNames(s.people);
  }

  /** A rename keeps names distinct exactly when the new name is nobody else's. */
  lemma PutKeepsNames(s: Net, k: nat, n: Nick)
    requires k < |s.people| && Distinct(s)
    ensures Distinct(WithPerson(s, k, n)) <==> Fresh(s, k, n.nick)
  {
    var r := WithPerson(s, k, n);
    var a, b, cm := PeopleNames(s.people), PeopleNames(r.people), s.info.casemapping;
    if Fresh(s, k, n.nick) {
      forall i, j | 0 <= i < j < |b|
        ensures !Same(cm, b[i], b[j])
      {
        assert !Same(cm, a[i], a[j]);
      }
    }
    if Distinct(r) {
      forall x | 0 <= x < |s.people| && x != k
        ensures !Eq(s.info, s.people[x].nick, n.nick)
      {
        assert !Same(cm, b[if x < k then x else k], b[if x < k then k else x]);
      }
    }
  }

  lemma PutKeepsMasks(s: Net, k: nat, n: Nick)
    requires k < |s.people| && (k == 0 || MaskOk(n))
    ensures MasksOk(s) ==> MasksOk(WithPerson(s, k, n))
  {}

  /** A new spelling of somebody's name is fresh. */
  lemma RespellingIsFresh(s: Net, k: nat, name: string)
    requires Distinct(s) && k < |s.people| && Eq(s.info, s.people[k].nick, name)
    ensures Fresh(s, k, name)
  {
    var a := PeopleNames(s.people);
    forall x | 0 <= x < |s.people| && x != k
      ensures !Eq(s.info, s.people[x].nick, name)
    {
      assert !Same(s.info.casemapping, a[if x < k then x else k], a[if x < k then k else x]);
    }
  }

  lemma RespellKeeps(s: Net, k: nat, n: Nick)
    requires k < |s.people| && Eq(s.info, s.people[k].nick, n.nick) && (k == 0 || MaskOk(n))
    ensures Keeps(s, WithPerson(s, k, n))
  {
    if Distinct(s) {
      RespellingIsFresh(s, k, n.nick);
      PutKeepsNames(s, k, n);
    }
    PutKeepsMasks(s, k, n);
  }

  lemma AddMemberKeeps(s: Net, i: nat, name: string)
    requires Sound(s) && i < |s.channels| && OnePrefix(s.info, name)
    ensures Keeps(s, AddMember(s, i, name))
    ensures var r, j := AddMember(s, i, name), FindMember(s, i, StripPrefix(s.info, name));
            j < |r.channels[i].members| &&
                Eq(s.info, r.people[r.channels[i].members[j].who].nick, StripPrefix(s.info, name))
  {
    var realname := StripPrefix(s.info, name);
    if FindMember(s, i, realname) < |s.channels[i].members| {
      assert MemberNames(s.people, s.channels[i].members) == MemberNames(s.people, s.channels[i].members);
    } else {
      AddPersonKeeps(s, realname);
      SameNamesKeep(AddPerson(s, realname), AddMember(s, i, name));
    }
  }

  lemma DropPersonKeeps(s: Net, k: nat)
    requires Sound(s) && 1 <= k < |s.people| && !OnAny(s, k)
    ensures Keeps(s, DropPerson(s, k))
  {
    var r := DropPerson(s, k);
    assert PeopleNames(r.people) == Without(PeopleNames(s.people), k);
    assert ChanNames(r.channels) == ChanNames(s.channels);
  }

  lemma DropMemberKeeps(s: Net, i: nat, j: nat)
    requires Sound(s) && i < |s.channels| && j < |s.channels[i].members|
    ensures Keeps(s, DropMember(s, i, j))
  {
    var s1, k := RemoveMember(s, i, j), s.channels[i].members[j].who;
    SameNamesKeep(s, s1);
    if !OnAny(s1, k) && !s1.people[k].query {
      DropPersonKeeps(s1, k);
    }
  }

  lemma {:induction false} ClearMembersKeeps(s: Net, i: nat)
    requires Sound(s) && i < |s.channels|
    ensures Keeps(s, ClearMembers(s, i))
    decreases |s.channels[i].members|
  {
    if s.channels[i].members != [] {
      DropMemberKeeps(s, i, 0);
      ClearMembersKeeps(DropMember(s, i, 0), i);
    }
  }

  lemma DropChanKeeps(s: Net, i: nat)
    requires Sound(s) && i < |s.channels|
    ensures Keeps(s, DropChan(s, i))
  {
    ClearMembersKeeps(s, i);
    assert ChanNames(DropChan(s, i).channels) == Without(ChanNames(ClearMembers(s, i).channels), i);
  }

  lemma QuitKeeps(s: Net, nick: string)
    requires Sound(s)
    ensures Keeps(s, Quit(s, nick))
  {
    var k := FindPerson(s, nick);
    if k < |s.people| {
      SameNamesKeep(s, LeaveAll(s, k));
      if k > 0 { DropPersonKeeps(LeaveAll(s, k), k); }
    }
  }

  // ------------------------------------------------------------------------ lines

  lemma NickPartClean(origin: string)
    ensures '!' !in NickPart(origin)
    ensures forall name, rest: string :: '!' !in name && origin == name + "!" + rest ==> NickPart(origin) == name
  {
    forall name, rest: string | '!' !in name && origin == name + "!" + rest
      ensures NickPart(origin) == name
    {
      assert origin[|name|] == '!' && origin[..|name|] == name;
      IndexOfIs(origin, '!', |name|);
    }
  }

  /** network_nick_set_hostmask, where it does anything, takes the nick from the mask. */
  lemma HostmaskRespells(n: Nick, mask: string)
    requires '!' in mask
    ensures SetHostmask(n, mask).nick == NickPart(mask) || SetHostmask(n, mask) == n
    ensures SetHostmask(n, mask).query == n.query
  {}

  lemma JoinOneKeeps(s: Net, name: string, origin: string)
    requires Sound(s) && '!' in origin && !HasPrefix(s.info, NickPart(origin))
    ensures OnePrefix(s.info, NickPart(origin)) && Keeps(s, JoinOne(s, name, origin))
  {
    var s1, i, nick := AddChan(s, name), FindChan(s, name), NickPart(origin);
    AddChanKeeps(s, name);
    AddMemberKeeps(s1, i, nick);
    var s2, j := AddMember(s1, i, nick), FindMember(s1, i, nick);
    var k := s2.channels[i].members[j].who;
    JoinMaskKeeps(s2, k, origin);
  }

  /** network_nick_set_hostmask on somebody already called so. */
  lemma JoinMaskKeeps(s: Net, k: nat, origin: string)
    requires k < |s.people| && '!' in origin && Eq(s.info, s.people[k].nick, NickPart(origin))
    ensures Keeps(s, WithPerson(s, k, SetHostmask(s.people[k], origin)))
  {
    var n := SetHostmask(s.people[k], origin);
    var r := WithPerson(s, k, n);
    if n == s.people[k] {
      assert r == s;
    } else {
      RespellKeeps(s, k, n);
    }
  }

  lemma {:induction false} JoinAllKeeps(s: Net, names: seq<string>, origin: string)
    requires Sound(s) && '!' in origin && !HasPrefix(s.info, NickPart(origin))
    ensures OnePrefix(s.info, NickPart(origin)) && Keeps(s, JoinAll(s, names, origin))
    decreases |names|
  {
    hide JoinOne, Distinct, MasksOk;
    if names != [] {
      JoinOneKeeps(s, names[0], origin);
      JoinAllKeeps(JoinOne(s, names[0], origin), names[1..], origin);
    }
  }

  lemma PartOneKeeps(s: Net, name: string, nick: string)
    requires Sound(s)
    ensures Keeps(s, PartOne(s, name, nick)) && Keeps(s, KickOne(s, name, nick))
  {
    hide DropMember, DropChan, Distinct, MasksOk;
    var i := FindChan(s, name);
    if i < |s.channels| {
      var j := FindMember(s, i, nick);
      if j < |s.channels[i].members| {
        DropMemberKeeps(s, i, j);
        DropChanKeeps(DropMember(s, i, j), i);
      }
      DropChanKeeps(s, i);
    }
  }

  lemma {:induction false} PartAllKeeps(s: Net, names: seq<string>, nick: string)
    requires Sound(s)
    ensures Keeps(s, PartAll(s, names, nick))
    decreases |names|
  {
    hide PartOne, KickOne, Distinct, MasksOk;
    if names != [] {
      PartOneKeeps(s, names[0], nick);
      PartAllKeeps(PartOne(s, names[0], nick), names[1..], nick);
    }
  }

  lemma {:induction false} KickAllKeeps(s: Net, names: seq<string>, nicks: seq<string>)
    requires Sound(s)
    ensures Keeps(s, KickAll(s, names, nicks))
    decreases |names|
  {
    hide PartOne, KickOne, Distinct, MasksOk;
    if names != [] && nicks != [] {
      PartOneKeeps(s, names[0], nicks[0]);
      KickAllKeeps(KickOne(s, names[0], nicks[0]), names[1..], nicks[1..]);
    }
  }

  lemma {:induction false} AddNamesKeeps(s: Net, i: nat, names: seq<string>)
    requires Sound(s) && i < |s.channels| && AllOnePrefix(s.info, names)
    ensures Keeps(s, AddNames(s, i, names))
    decreases |names|
  {
    hide AddMember, Distinct, MasksOk;
    if names != [] {
      AddMemberKeeps(s, i, names[0]);
      AddNamesKeeps(if names[0] == "" then s else AddMember(s, i, names[0]), i, names[1..]);
    }
  }

  lemma NamReplyKeeps(s: Net, i: nat, mode: string, names: seq<string>)
    requires Sound(s) && i < |s.channels| && AllOnePrefix(s.info, names)
    ensures Keeps(s, NamReply(s, i, mode, names))
  {
    hide ClearMembers, AddNames, Distinct, MasksOk;
    var s1 := WithChan(s, i, s.channels[i].data.(mode := if mode == "" then '\0' else mode[0]));
    SameNamesKeep(s, s1);
    ClearMembersKeeps(s1, i);
    var c := ClearMembers(s1, i);
    SameNamesKeep(c, WithChan(c, i, c.channels[i].data.(namreplyStarted := true)));
    AddNamesKeeps(OpenNames(s, i, mode), i, names);
  }

  lemma DataStepKeeps(s: Net, l: Line, now: int)
    requires Sound(s) && Accepts(s, l) && Complete(l) && IsDataLine(CommandOf(l))
    ensures Keeps(s, DataStep(s, l, now))
  {
    SameNamesKeep(s, DataStep(s, l, now));
  }

  lemma {:induction false} ModeLoopKeeps(s: Net, setter: Option<string>, i: nat, modes: string, args: seq<string>,
                                          arg: nat, on: bool, now: int)
    requires Sound(s) && i < |s.channels| && ChanmodesOk(s.info)
    ensures Keeps(s, ModeLoop(s, setter, i, modes, args, arg, on, now))
    decreases |modes|
  {
    hide ChangeMode, Distinct, MasksOk;
    if modes == "" {
    } else if modes[0] == '+' {
      ModeLoopKeeps(s, setter, i, modes[1..], args, arg, true, now);
    } else if modes[0] == '-' {
      ModeLoopKeeps(s, setter, i, modes[1..], args, arg, false, now);
    } else {
      var c := ChangeMode(s, setter, i, on, modes[0], Nth(args, arg), now);
      ChangeModeKeeps(s, setter, i, on, modes[0], Nth(args, arg), now);
      if c.taken.Some? {
        ModeLoopKeeps(c.state, setter, i, modes[1..], args, if arg < |args| then arg + c.taken.value else arg, on, now);
      }
    }
  }

  lemma ChangeModeKeeps(s: Net, setter: Option<string>, i: nat, on: bool, m: char, arg: Option<string>, now: int)
    requires Sound(s) && i < |s.channels| && ChanmodesOk(s.info)
    ensures Keeps(s, ChangeMode(s, setter, i, on, m, arg, now).state)
  {
    hide Keeps, Sound, ChangeList, ChangeOption, ChangeMemberMode;
    SameNamesKeep(s, s);
    SameNamesKeep(s, ChangeList(s, setter, i, on, m, arg, now).state) by {
      ListKeepsNames(s, setter, i, on, m, arg, now);
    }
    SameNamesKeep(s, ChangeOption(s, i, on, m, arg).state) by { OptionKeepsNames(s, i, on, m, arg); }
    SameNamesKeep(s, ChangeMemberMode(s, i, on, m, arg).state) by { MemberModeKeepsNames(s, i, on, m, arg); }
    var d := s.channels[i].data;
    SameNamesKeep(s, WithChan(s, i, d.(modes := ToggleMode(d.modes, on, m))));
  }

  predicate SameNames(s: Net, r: Net) {
    && r.info == s.info && r.people == s.people && |r.channels| == |s.channels|
    && forall i :: 0 <= i < |s.channels| ==> r.channels[i].data.name == s.channels[i].data.name
  }

  lemma ListKeepsNames(s: Net, setter: Option<string>, i: nat, on: bool, m: char, arg: Option<string>, now: int)
    requires i < |s.channels|
    ensures SameNames(s, ChangeList(s, setter, i, on, m, arg, now).state)
  {}

  lemma OptionKeepsNames(s: Net, i: nat, on: bool, m: char, arg: Option<string>)
    requires i < |s.channels|
    ensures SameNames(s, ChangeOption(s, i, on, m, arg).state)
  {}

  lemma MemberModeKeepsNames(s: Net, i: nat, on: bool, m: char, arg: Option<string>)
    requires Sound(s) && i < |s.channels|
    ensures SameNames(s, ChangeMemberMode(s, i, on, m, arg).state)
  {}

  /** A change of somebody's record that leaves nick and hostmask alone. */
  lemma TouchKeeps(s: Net, name: string, n: Nick)
    requires var p := AddPerson(s, name).people[FindPerson(s, name)]; n.nick == p.nick && n.hostmask == p.hostmask
    ensures Keeps(s, WithPerson(AddPerson(s, name), FindPerson(s, name), n))
  {
    AddPersonKeeps(s, name);
    var s1, k := AddPerson(s, name), FindPerson(s, name);
    var r := WithPerson(s1, k, n);
    assert PeopleNames(r.people) == PeopleNames(s1.people);
  }

  lemma ModeLineKeeps(s: Net, l: Line, now: int)
    requires Sound(s) && Accepts(s, l) && CommandOf(l) == MODE && Complete(l)
    ensures Keeps(s, ModeLine(s, l, now))
  {
    hide Distinct, MasksOk, ModeLoop;
    if IsChannelName(s.info, l.args[1]) {
      var i := FindChan(s, l.args[1]);
      if i < |s.channels| {
        ModeLoopKeeps(s, SetterOf(s, NickPart(l.origin.value)), i, l.args[2], l.args, 3, true, now);
      }
    } else {
      var p := AddPerson(s, l.args[1]).people[FindPerson(s, l.args[1])];
      TouchKeeps(s, l.args[1], p.(modes := UserModes(p.modes, l.args[2], true)));
    }
  }

  // ---------------------------------------------------------------- renaming lines

  /** The names a line brings in do not collide: NICK and 001 targets are new, a joining nick
      carries no prefix, nicks in a USERHOST reply are plain, and 005 keeps the casemapping. */
  predicate NamesOk(s: Net, l: Line)
    requires Sound(s) && Accepts(s, l)
  {
    Complete(l) ==>
      match CommandOf(l)
      case JOIN => l.origin.Some? ==> !HasPrefix(s.info, NickPart(l.origin.value))
      case NICK => l.origin.Some? ==> Fresh(s, FindPerson(s, NickPart(l.origin.value)), l.args[1])
      case N001 => Fresh(s, 0, l.args[1])
      case N302 => PlainEntries(StrSplit(Strip(l.args[2]), ' '))
      case N005 => ParseTokens(s.info, l.args[2..|l.args| - 1]).casemapping == s.info.casemapping
      case _ => true
  }

  predicate PlainEntries(es: seq<string>) {
    forall k :: 0 <= k < |es| ==> '!' !in es[k][..IndexOf(es[k], '=')]
  }

  /** The nicks a line sets have no exclamation mark in them, and a joining nick no prefix. */
  predicate MasksStay(s: Net, l: Line) {
    Complete(l) ==>
      match CommandOf(l)
      case JOIN => l.origin.Some? ==> !HasPrefix(s.info, NickPart(l.origin.value))
      case NICK => '!' !in l.args[1]
      case N352 => '!' !in l.args[6]
      case N302 => PlainEntries(StrSplit(Strip(l.args[2]), ' '))
      case _ => true
  }

  lemma FreshAfterAdd(s: Net, name: string, to: string)
    ensures Fresh(s, FindPerson(s, name), to) <==> Fresh(AddPerson(s, name), FindPerson(s, name), to)
  {
    var r := AddPerson(s, name);
    assert forall x :: 0 <= x < |s.people| ==> r.people[x] == s.people[x];
  }

  /** NICK: the condition on the new nick is exact. */
  lemma RenameKeeps(s: Net, name: string, to: string)
    requires Sound(s)
    ensures Distinct(s) ==> (Distinct(RenameStep(s, name, to)) <==> Fresh(s, FindPerson(s, name), to))
    ensures MasksOk(s) && '!' !in to ==> MasksOk(RenameStep(s, name, to))
  {
    AddPersonKeeps(s, name);
    var s1, k := AddPerson(s, name), FindPerson(s, name);
    var n := SetNick(s1.people[k], to);
    FreshAfterAdd(s, name, to);
    if Distinct(s) {
      PutKeepsNames(s1, k, n);
    }
    if MasksOk(s) && '!' !in to {
      MaskIsPrefixed(to, s1.people[k].username, s1.people[k].hostname);
    }
  }

  /** 001: likewise. */
  lemma WelcomeKeeps(s: Net, l: Line, now: int)
    requires Sound(s) && CommandOf(l) == N001 && Complete(l) && Distinct(s)
    ensures Accepts(s, l) && (Distinct(Step(s, l, now)) <==> Fresh(s, 0, l.args[1]))
  {
    PutKeepsNames(s, 0, s.people[0].(nick := l.args[1]));
  }

  lemma MaskIsPrefixed(nick: string, user: Option<string>, host: Option<string>)
    requires '!' !in nick
    ensures '!' in Mask(nick, user, host) && NickPart(Mask(nick, user, host)) == nick
  {
    var m := Mask(nick, user, host);
    assert m == nick + "!" + (OrNull(user) + "@" + OrNull(host));
    NickPartClean(m);
    assert m[|nick|] == '!';
  }

  /** 352. */
  lemma WhoReplyKeeps(s: Net, a: seq<string>, now: int)
    requires Sound(s) && |a| >= 9
    ensures Distinct(s) ==> Distinct(WhoReply(s, a, now))
    ensures MasksOk(s) && '!' !in a[6] ==> MasksOk(WhoReply(s, a, now))
  {
    hide Distinct, MasksOk, MaskOk;
    AddPersonKeeps(s, a[6]);
    var s1, k := AddPerson(s, a[6]), FindPerson(s, a[6]);
    var n := WhoNick(s1.people[k], a);
    var s2 := WithPerson(s1, k, n);
    SameNamesKeep(s2, WhoReply(s, a, now));
    if Distinct(s1) {
      RespellingIsFresh(s1, k, n.nick);
      PutKeepsNames(s1, k, n);
    }
    if MasksOk(s1) && '!' !in a[6] {
      WhoNickMask(s1, k, a);
      PutKeepsMasks(s1, k, n);
    }
  }

  lemma WhoNickMask(s: Net, k: nat, a: seq<string>)
    requires MasksOk(s) && k < |s.people| && |a| >= 9 && '!' !in a[6]
    ensures k == 0 || MaskOk(WhoNick(s.people[k], a))
  {
    MaskIsPrefixed(a[6], Some(a[3]), Some(a[4]));
  }

  /** 302. */
  lemma UserHostKeeps(s: Net, entry: string)
    requires Sound(s) && UserHostOk(s, entry) && '!' !in entry[..IndexOf(entry, '=')]
    ensures Keeps(s, UserHost(s, entry))
  {
    hide Distinct, MasksOk;
    var e := IndexOf(entry, '=');
    if e < |entry| {
      var nick := entry[..e];
      AddPersonKeeps(s, nick);
      var mask := nick + "!" + entry[e + 2..];
      assert mask[e] == '!';
      NickPartClean(mask);
      JoinMaskKeeps(AddPerson(s, nick), FindPerson(s, nick), mask);
    }
  }

  lemma {:induction false} UserHostsKeep(s: Net, entries: seq<string>)
    requires Sound(s) && UserHostsOk(s, entries) && PlainEntries(entries)
    ensures Keeps(s, UserHosts(s, entries))
    decreases |entries|
  {
    hide Distinct, MasksOk, UserHost, UserHostOk;
    if entries != [] {
      UserHostKeeps(s, entries[0]);
      UserHostsKeep(UserHost(s, entries[0]), entries[1..]);
    }
  }

  // ------------------------------------------------------------------------- steps

  lemma MemberStepKeeps(s: Net, l: Line, now: int)
    requires Sound(s) && Accepts(s, l) && Complete(l) && IsMemberLine(CommandOf(l))
    requires CommandOf(l) == JOIN && l.origin.Some? ==> !HasPrefix(s.info, NickPart(l.origin.value))
    ensures Distinct(s) ==> Distinct(MemberStep(s, l, now))
    ensures MasksOk(s) && MasksStay(s, l) ==> MasksOk(MemberStep(s, l, now))
  {
    hide Distinct, MasksOk, JoinAll, PartAll, KickAll, Quit, NamReply, WhoReply;
    var a := l.args;
    match CommandOf(l) {
      case JOIN => if l.origin.Some? { JoinAllKeeps(s, StrSplit(a[1], ','), l.origin.value); }
      case PART => if l.origin.Some? { PartAllKeeps(s, StrSplit(a[1], ','), NickPart(l.origin.value)); }
      case KICK => if l.origin.Some? { KickAllKeeps(s, StrSplit(a[1], ','), StrSplit(a[2], ',')); }
      case QUIT => if l.origin.Some? { QuitKeeps(s, NickPart(l.origin.value)); }
      case N353 => if KnownChan(s, a[3]) { NamReplyKeeps(s, FindChan(s, a[3]), a[2], StrSplit(a[4], ' ')); }
      case N352 => WhoReplyKeeps(s, a, now);
    }
  }

  lemma OtherStepKeepsNames(s: Net, l: Line, now: int)
    requires Sound(s) && Accepts(s, l) && Complete(l) && !IsMemberLine(CommandOf(l)) && !IsDataLine(CommandOf(l))
    requires Distinct(s) && NamesOk(s, l)
    ensures Distinct(OtherStep(s, l, now))
  {
    hide Distinct, MasksOk, UserHosts, RenameStep, ModeLine, UserHostsOk;
    var a := l.args;
    match CommandOf(l) {
      case NICK => if l.origin.Some? { RenameKeeps(s, NickPart(l.origin.value), a[1]); }
      case PRIVMSG => if l.origin.Some? { QueryKeeps(s, NickPart(l.origin.value)); }
      case MODE => ModeLineKeeps(s, l, now);
      case N001 => PutKeepsNames(s, 0, s.people[0].(nick := a[1]));
      case N221 => TouchMeKeeps(s, StringToModes(a[1]));
      case N302 => UserHostsKeep(s, StrSplit(Strip(a[2]), ' '));
      case N004 => SameCasemapping(s, OtherStep(s, l, now));
      case N005 => SameCasemapping(s, OtherStep(s, l, now));
      case N305 => SameCasemapping(s, OtherStep(s, l, now));
      case N306 => SameCasemapping(s, OtherStep(s, l, now));
      case N315 =>
      case OTHER =>
    }
  }

  lemma OtherStepKeepsMasks(s: Net, l: Line, now: int)
    requires Sound(s) && Accepts(s, l) && Complete(l) && !IsMemberLine(CommandOf(l)) && !IsDataLine(CommandOf(l))
    requires MasksOk(s) && MasksStay(s, l)
    ensures MasksOk(OtherStep(s, l, now))
  {
    hide Distinct, UserHosts, RenameStep, ModeLine, UserHostsOk;
    var a := l.args;
    match CommandOf(l) {
      case NICK => if l.origin.Some? { RenameKeeps(s, NickPart(l.origin.value), a[1]); }
      case PRIVMSG => if l.origin.Some? { QueryKeeps(s, NickPart(l.origin.value)); }
      case MODE => ModeLineKeeps(s, l, now);
      case N302 => UserHostsKeep(s, StrSplit(Strip(a[2]), ' '));
      case _ =>
    }
  }

  lemma QueryKeeps(s: Net, name: string)
    requires Sound(s)
    ensures Keeps(s, QueryStep(s, name))
  {
    TouchKeeps(s, name, AddPerson(s, name).people[FindPerson(s, name)].(query := true));
  }

  lemma TouchMeKeeps(s: Net, modes: set<char>)
    requires Sound(s)
    ensures Keeps(s, WithPerson(s, 0, s.people[0].(modes := modes)))
  {
    var r := WithPerson(s, 0, s.people[0].(modes := modes));
    assert PeopleNames(r.people) == PeopleNames(s.people);
  }

  lemma SameCasemapping(s: Net, r: Net)
    requires Distinct(s) && r.people == s.people && r.channels == s.channels && r.info.casemapping == s.info.casemapping
    ensures Distinct(r)
  {}

  /** One line keeps names distinct. */
  lemma StepKeepsDistinct(s: Net, l: Line, now: int)
    requires Sound(s) && Accepts(s, l) && Distinct(s) && NamesOk(s, l)
    ensures Distinct(Step(s, l, now))
  {
    hide Distinct, MasksOk, DataStep, OtherStep, MemberStep, Accepts;
    if Complete(l) {
      if IsDataLine(CommandOf(l)) { DataStepKeeps(s, l, now); }
      else if IsMemberLine(CommandOf(l)) { MemberStepKeeps(s, l, now); }
      else { OtherStepKeepsNames(s, l, now); }
    }
  }

  /** One line keeps hostmasks with their nicks. */
  lemma StepKeepsMasks(s: Net, l: Line, now: int)
    requires Sound(s) && Accepts(s, l) && MasksOk(s) && MasksStay(s, l)
    ensures MasksOk(Step(s, l, now))
  {
    hide Distinct, MasksOk, DataStep, OtherStep, MemberStep, Accepts;
    if Complete(l) {
      if IsDataLine(CommandOf(l)) { DataStepKeeps(s, l, now); }
      else if IsMemberLine(CommandOf(l)) { MemberStepKeeps(s, l, now); }
      else { OtherStepKeepsMasks(s, l, now); }
    }
  }

  // -------------------------------------------------------------------------- runs

  predicate NamesOkInRun(s: Net, es: seq<Event>)
    requires Sound(s) && Accepted(s, es)
    decreases |es|
  {
    es == [] || (NamesOk(s, es[0].line) && NamesOkInRun(Step(s, es[0].line, es[0].now), es[1..]))
  }

  predicate MasksStayInRun(s: Net, es: seq<Event>)
    requires Sound(s) && Accepted(s, es)
    decreases |es|
  {
    es == [] || (MasksStay(s, es[0].line) && MasksStayInRun(Step(s, es[0].line, es[0].now), es[1..]))
  }

  /** In every run whose lines bring in no colliding name, no two channels, people or members
      of a channel ever answer to the same name. */
  lemma {:induction false} RunKeepsDistinct(s: Net, es: seq<Event>)
    requires Sound(s) && Accepted(s, es) && Distinct(s) && NamesOkInRun(s, es)
    ensures Distinct(Run(s, es))
    decreases |es|
  {
    hide Distinct, Step, Accepts, NamesOk;
    if es != [] {
      StepKeepsDistinct(s, es[0].line, es[0].now);
      RunKeepsDistinct(Step(s, es[0].line, es[0].now), es[1..]);
    }
  }

  lemma {:induction false} RunKeepsMasks(s: Net, es: seq<Event>)
    requires Sound(s) && Accepted(s, es) && MasksOk(s) && MasksStayInRun(s, es)
    ensures MasksOk(Run(s, es))
    decreases |es|
  {
    hide MasksOk, Step, Accepts, MasksStay;
    if es != [] {
      StepKeepsMasks(s, es[0].line, es[0].now);
      RunKeepsMasks(Step(s, es[0].line, es[0].now), es[1..]);
    }
  }

  /** Both invariants hold to begin with. */
  lemma InitiallyUnique(nick: string, username: string, hostname: string)
    ensures Distinct(InitialNet(nick, username, hostname)) && MasksOk(InitialNet(nick, username, hostname))
  {}
}
