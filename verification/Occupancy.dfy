/** A state seen as the set of members of every channel, and what each kind of line a client is
    sent does to that. */
module Occupancy {
  import opened Base
  import opened Casemap
  import opened Info
  import opened Line
  import opened State
  import opened Handlers
  import opened Unique
  import opened Names
  import opened Seating

  function Named(r: set<(string, string)>, c: string): (ns: set<string>) { set p | p in r && p.0 == c :: p.1 }

  /** The members of every channel, all names folded. */
  function Rooms(s: Net): (m: map<string, set<string>>)
    requires Sound(s)
  {
    map c | c in Chans(s) :: Named(Roster(s), c)
  }

  function MeKey(s: Net): (k: string)
    requires Sound(s)
  {
    Key(s, s.people[0].nick)
  }

  // --------------------------------------------------------------------------- algebra

  lemma NamedMinus(r: set<(string, string)>, c: string, n: string)
    ensures Named(r - {(c, n)}, c) == Named(r, c) - {n}
    ensures forall d :: d != c ==> Named(r - {(c, n)}, d) == Named(r, d)
  {
    assert forall x :: x in Named(r, c) && x != n ==> (c, x) in r - {(c, n)};
    forall d | d != c
      ensures Named(r - {(c, n)}, d) == Named(r, d)
    {
      assert forall x :: x in Named(r, d) ==> (d, x) in r - {(c, n)};
    }
  }

  lemma NamedPlus(r: set<(string, string)>, c: string, n: string)
    ensures Named(r + {(c, n)}, c) == Named(r, c) + {n}
    ensures forall d :: d != c ==> Named(r + {(c, n)}, d) == Named(r, d)
  {
    assert (c, n) in r + {(c, n)};
    assert forall x :: x in Named(r, c) ==> (c, x) in r + {(c, n)};
    forall d | d != c
      ensures Named(r + {(c, n)}, d) == Named(r, d)
    {
      assert forall x :: x in Named(r, d) ==> (d, x) in r + {(c, n)};
    }
  }

  lemma NamedWithout(r: set<(string, string)>, c: string, ns: set<string>)
    ensures Named(WithoutChan(r, c) + Pairs(c, ns), c) == ns
    ensures forall d :: d != c ==> Named(WithoutChan(r, c) + Pairs(c, ns), d) == Named(r, d)
    ensures forall d :: d != c ==> Named(WithoutChan(r, c), d) == Named(r, d)
  {
    var q := WithoutChan(r, c) + Pairs(c, ns);
    assert forall x :: x in ns ==> (c, x) in q;
    forall d | d != c
      ensures Named(q, d) == Named(r, d) && Named(WithoutChan(r, c), d) == Named(r, d)
    {
      assert forall x :: x in Named(r, d) ==> (d, x) in q && (d, x) in WithoutChan(r, c);
    }
  }

  lemma KnownKey(s: Net, name: string)
    requires Sound(s)
    ensures KnownChan(s, name) <==> Key(s, name) in Rooms(s)
    ensures KnownChan(s, name) ==> ChanKey(s, FindChan(s, name)) == Key(s, name)
  {
    var i, names := FindChan(s, name), ChanNames(s.channels);
    if i < |s.channels| {
      assert Same(s.info.casemapping, names[i], name);
      assert ChanKey(s, i) in Chans(s);
    } else {
      forall x | 0 <= x < |s.channels|
        ensures ChanKey(s, x) != Key(s, name)
      {
        assert !Same(s.info.casemapping, names[x], name);
      }
    }
  }

  // ------------------------------------------------------------------------- operations

  /** Somebody leaves a channel: with `me`, the channel goes; else one member goes, if there. */
  function Left(m: map<string, set<string>>, c: string, n: string, me: bool): (r: map<string, set<string>>) {
    if c !in m then m else if me then m - {c} else m[c := m[c] - {n}]
  }

  lemma IsMeKey(s: Net, nick: string)
    requires Sound(s)
    ensures IsMe(s, nick) <==> Key(s, nick) == MeKey(s)
  {}

  /** PART; a prefix on the nick counts for `me` only. */
  lemma PartRooms(s: Net, name: string, nick: string)
    requires Sound(s) && Distinct(s)
    ensures var r, n := PartOne(s, name, nick), Key(s, StripPrefix(s.info, nick));
            && Rooms(r) == Left(Rooms(s), Key(s, name), n, Key(s, nick) == MeKey(s))
            && Distinct(r) && r.info == s.info && MeKey(r) == MeKey(s)
  {
    hide Distinct, DropMember, DropChan, Roster, Chans, Rooms, IsMe;
    KnownKey(s, name);
    PartOneKeeps(s, name, nick);
    IsMeKey(s, nick);
    var i := FindChan(s, name);
    if i < |s.channels| {
      PartOneMember(s, i, nick);
      DropMemberKeepsDistinct(s, i, nick);
      var j := FindMember(s, i, nick);
      var s1 := if j < |s.channels[i].members| then DropMember(s, i, j) else s;
      IsMeKey(s1, nick);
      MemberGoneRooms(s, s1, i, Key(s, StripPrefix(s.info, nick)));
      ChanGoneRooms(s, s1, i, Key(s, StripPrefix(s.info, nick)));
    }
  }

  /** KICK; nothing happens to somebody who is not there. */
  lemma KickRooms(s: Net, name: string, nick: string)
    requires Sound(s) && Distinct(s)
    ensures var r, c, n := KickOne(s, name, nick), Key(s, name), Key(s, StripPrefix(s.info, nick));
            && Rooms(r) == (if c in Rooms(s) && n in Rooms(s)[c]
                            then Left(Rooms(s), c, n, Key(s, nick) == MeKey(s))
                            else Rooms(s))
            && Distinct(r) && r.info == s.info && MeKey(r) == MeKey(s)
  {
    hide Distinct, DropMember, DropChan, Roster, Chans, Rooms, IsMe;
    KnownKey(s, name);
    PartOneKeeps(s, name, nick);
    IsMeKey(s, nick);
    var i := FindChan(s, name);
    if i < |s.channels| {
      PartOneMember(s, i, nick);
      DropMemberKeepsDistinct(s, i, nick);
      FoundIffSeated(s, i, nick);
      var j := FindMember(s, i, nick);
      if j < |s.channels[i].members| {
        var s1 := DropMember(s, i, j);
        IsMeKey(s1, nick);
        MemberGoneRooms(s, s1, i, Key(s, StripPrefix(s.info, nick)));
        ChanGoneRooms(s, s1, i, Key(s, StripPrefix(s.info, nick)));
      }
    }
  }

  lemma MemberGoneRooms(s: Net, s1: Net, i: nat, n: string)
    requires Sound(s) && Sound(s1) && i < |s.channels| && Chans(s1) == Chans(s)
    requires Roster(s1) == Roster(s) - {(ChanKey(s, i), n)}
    ensures ChanKey(s, i) in Rooms(s) && Rooms(s1) == Rooms(s)[ChanKey(s, i) := Rooms(s)[ChanKey(s, i)] - {n}]
  {
    assert ChanKey(s, i) in Chans(s);
    hide Chans, Roster, Sound, ChanKey;
    NamedMinus(Roster(s), ChanKey(s, i), n);
  }

  lemma ChanGoneRooms(s: Net, s1: Net, i: nat, n: string)
    requires Sound(s) && Sound(s1) && Distinct(s1) && i < |s.channels| && i < |s1.channels|
    requires ChanKey(s1, i) == ChanKey(s, i)
    requires Chans(s1) == Chans(s) && Roster(s1) == Roster(s) - {(ChanKey(s, i), n)}
    ensures Rooms(DropChan(s1, i)) == Rooms(s) - {ChanKey(s, i)}
  {
    hide Chans, Roster, Sound, ChanKey, Distinct, DropChan, WithoutChan;
    DropChanRoster(s1, i);
    WithoutTwice(Roster(s), ChanKey(s, i), n);
    NamedWithout(Roster(s), ChanKey(s, i), {});
  }

  /** find_channel_nick finds somebody exactly when the name is in the room. */
  lemma FoundIffSeated(s: Net, i: nat, nick: string)
    requires Sound(s) && Distinct(s) && i < |s.channels|
    ensures ChanKey(s, i) in Rooms(s)
    ensures FindMember(s, i, nick) < |s.channels[i].members| <==>
            Key(s, StripPrefix(s.info, nick)) in Rooms(s)[ChanKey(s, i)]
  {
    RosterSplit(s, i);
    assert ChanKey(s, i) in Chans(s);
    NamedWithout(Roster(s), ChanKey(s, i), Seats(s, i));
    hide Roster, Chans, Distinct;
    var names := MemberNames(s.people, s.channels[i].members);
    var j, realname := FindMember(s, i, nick), StripPrefix(s.info, nick);
    if j < |names| {
      assert Same(s.info.casemapping, names[j], realname);
      assert NickKey(s, i, j) == Key(s, realname);
    }
    assert forall x :: 0 <= x < |names| && NickKey(s, i, x) == Key(s, realname) ==>
        Same(s.info.casemapping, names[x], realname);
  }

  lemma DropMemberKeepsDistinct(s: Net, i: nat, nick: string)
    requires Sound(s) && Distinct(s) && i < |s.channels|
    ensures var j := FindMember(s, i, nick); j < |s.channels[i].members| ==> Distinct(DropMember(s, i, j))
  {
    var j := FindMember(s, i, nick);
    if j < |s.channels[i].members| { DropMemberKeeps(s, i, j); }
  }

  /** The member half of PART and KICK. */
  lemma PartOneMember(s: Net, i: nat, nick: string)
    requires Sound(s) && Distinct(s) && i < |s.channels|
    ensures var j := FindMember(s, i, nick);
            var s1 := if j < |s.channels[i].members| then DropMember(s, i, j) else s;
            && Chans(s1) == Chans(s) && ChanKey(s1, i) == ChanKey(s, i)
            && Roster(s1) == Roster(s) - {(ChanKey(s, i), Key(s, StripPrefix(s.info, nick)))}
  {
    var j, ms, realname := FindMember(s, i, nick), s.channels[i].members, StripPrefix(s.info, nick);
    var names := MemberNames(s.people, ms);
    if j < |ms| {
      assert Same(s.info.casemapping, names[j], realname);
      assert NickKey(s, i, j) == Key(s, realname);
      DropMemberRoster(s, i, j);
    } else {
      RosterSplit(s, i);
      forall x | 0 <= x < |ms|
        ensures NickKey(s, i, x) != Key(s, realname)
      {
        assert !Same(s.info.casemapping, names[x], realname);
      }
      assert (ChanKey(s, i), Key(s, realname)) !in Roster(s);
    }
  }

  function Entered(m: map<string, set<string>>, c: string, n: string): (r: map<string, set<string>>) {
    m[c := (if c in m then m[c] else {}) + {n}]
  }

  lemma JoinRooms(s: Net, name: string, origin: string)
    requires Sound(s) && Distinct(s) && '!' in origin && !HasPrefix(s.info, NickPart(origin))
    ensures OnePrefix(s.info, NickPart(origin))
    ensures var r := JoinOne(s, name, origin);
            && Rooms(r) == Entered(Rooms(s), Key(s, name), Key(s, NickPart(origin)))
            && Distinct(r) && r.info == s.info && MeKey(r) == MeKey(s)
  {
    hide Distinct, AddMember, AddChan, Roster, Chans, SetHostmask;
    JoinOneKeeps(s, name, origin);
    AddChanRoster(s, name);
    AddChanKeeps(s, name);
    KnownKey(s, name);
    var s1, i, nick := AddChan(s, name), FindChan(s, name), NickPart(origin);
    var c, n := Key(s, name), Key(s, nick);
    AddMemberRoster(s1, i, nick);
    AddMemberKeeps(s1, i, nick);
    var s2, j := AddMember(s1, i, nick), FindMember(s1, i, nick);
    var k := s2.channels[i].members[j].who;
    HostmaskRespells(s2.people[k], origin);
    RespellRoster(s2, k, SetHostmask(s2.people[k], origin));
    RoomEntered(s, JoinOne(s, name, origin), c, n);
    MeKeyAfterJoin(s, i, name, nick, k, SetHostmask(s2.people[k], origin));
  }

  lemma RoomEntered(s: Net, r: Net, c: string, n: string)
    requires Sound(s) && Sound(r) && Chans(r) == Chans(s) + {c} && Roster(r) == Roster(s) + {(c, n)}
    ensures Rooms(r) == Entered(Rooms(s), c, n)
  {
    assert c !in Chans(s) ==> Named(Roster(s), c) == {};
    hide Sound, Chans, Roster;
    NamedPlus(Roster(s), c, n);
  }

  lemma MeKeyAfterJoin(s: Net, i: nat, name: string, nick: string, k: nat, n: Nick)
    requires Sound(s) && i < |AddChan(s, name).channels| && OnePrefix(s.info, nick)
    requires var s2 := AddMember(AddChan(s, name), i, nick);
             k < |s2.people| && Eq(s.info, s2.people[k].nick, n.nick) && (k == 0 ==> n.query)
    ensures MeKey(WithPerson(AddMember(AddChan(s, name), i, nick), k, n)) == MeKey(s)
  {}

  /** NICK to another spelling of the same nick. */
  lemma RespellRooms(s: Net, name: string, to: string)
    requires Sound(s) && Distinct(s) && Eq(s.info, name, to)
    ensures var r := RenameStep(s, name, to);
            Rooms(r) == Rooms(s) && Distinct(r) && r.info == s.info && MeKey(r) == MeKey(s)
  {
    hide Distinct, Roster, Chans, Rooms;
    var k, s1 := FindPerson(s, name), AddPerson(s, name);
    RenameKeeps(s, name, to);
    AddPersonKeeps(s, name);
    AddPersonRoster(s, name);
    RespellIsFresh(s, name, to);
    RespellRoster(s1, k, SetNick(s1.people[k], to));
    SameRooms(s, RenameStep(s, name, to));
  }

  lemma SameRooms(s: Net, r: Net)
    requires Sound(s) && Sound(r) && Chans(r) == Chans(s) && Roster(r) == Roster(s)
    ensures Rooms(r) == Rooms(s)
  {}

  lemma RespellIsFresh(s: Net, name: string, to: string)
    requires Sound(s) && Distinct(s) && Eq(s.info, name, to)
    ensures Fresh(s, FindPerson(s, name), to)
  {
    var k, names := FindPerson(s, name), PeopleNames(s.people);
    if k < |s.people| {
      assert Same(s.info.casemapping, names[k], name);
      RespellingIsFresh(s, k, to);
    } else {
      assert forall x :: 0 <= x < |s.people| ==> !Same(s.info.casemapping, names[x], name);
    }
  }

  // -------------------------------------------------------- lines about topic and modes

  /** Lines that touch neither members nor names: topics, and modes of a channel. */
  predicate IsQuiet(s: Net, l: Line) {
    Complete(l) ==>
      || CommandOf(l) == TOPIC || CommandOf(l) == N332 || CommandOf(l) == N333
      || (CommandOf(l) == MODE && s.info.chantypes.Some? && IsChannelName(s.info, l.args[1]))
  }

  /** The same people hold the same seats; only data and modes may differ. */
  predicate SameWho(s: Net, r: Net) {
    && SameNames(s, r)
    && (forall i :: 0 <= i < |s.channels| ==> |r.channels[i].members| == |s.channels[i].members|)
    && (forall i, j :: 0 <= i < |s.channels| && 0 <= j < |s.channels[i].members| ==>
          r.channels[i].members[j].who == s.channels[i].members[j].who)
  }

  lemma SameSeatsByWho(s: Net, r: Net)
    requires Sound(s) && Sound(r) && SameWho(s, r)
    ensures SameSeats(s, r) && (Distinct(s) ==> Distinct(r)) && MeKey(r) == MeKey(s)
  {
    SameNamesKeep(s, r);
  }

  /** Neither members nor names changed. */
  predicate Quietly(s: Net, r: Net)
    requires Sound(s) && Sound(r)
  {
    SameSeats(s, r) && (Distinct(s) ==> Distinct(r)) && MeKey(r) == MeKey(s) && r.info == s.info
  }

  lemma QuietIfSameWho(s: Net, r: Net)
    requires Sound(s) && Sound(r) && SameWho(s, r)
    ensures Quietly(s, r)
  {
    SameSeatsByWho(s, r);
  }

  lemma WithChanSameWho(s: Net, i: nat, d: ChanData)
    requires i < |s.channels| && d.name == s.channels[i].data.name
    ensures SameWho(s, WithChan(s, i, d)) && SameWho(s, s)
  {}

  lemma ListSameWho(s: Net, setter: Option<string>, i: nat, on: bool, m: char, arg: Option<string>, now: int)
    requires i < |s.channels|
    ensures SameWho(s, ChangeList(s, setter, i, on, m, arg, now).state)
  {
    hide SameWho, WithChan;
    var d := s.channels[i].data;
    WithChanSameWho(s, i, d);
    forall l: map<char, seq<ListEntry>>
      ensures SameWho(s, WithChan(s, i, d.(lists := l)))
    {
      WithChanSameWho(s, i, d.(lists := l));
    }
  }

  lemma OptionSameWho(s: Net, i: nat, on: bool, m: char, arg: Option<string>)
    requires i < |s.channels|
    ensures SameWho(s, ChangeOption(s, i, on, m, arg).state)
  {
    hide SameWho, WithChan;
    var d := s.channels[i].data;
    WithChanSameWho(s, i, d);
    forall o: map<char, string>
      ensures SameWho(s, WithChan(s, i, d.(options := o)))
    {
      WithChanSameWho(s, i, d.(options := o));
    }
  }

  lemma MemberModeSameWho(s: Net, i: nat, on: bool, m: char, arg: Option<string>)
    requires Sound(s) && i < |s.channels|
    ensures SameWho(s, ChangeMemberMode(s, i, on, m, arg).state)
  {
    hide Sound, FindMember;
  }

  lemma ChangeModeQuietly(s: Net, setter: Option<string>, i: nat, on: bool, m: char, arg: Option<string>, now: int)
    requires Sound(s) && i < |s.channels| && ChanmodesOk(s.info)
    ensures Quietly(s, ChangeMode(s, setter, i, on, m, arg, now).state)
  {
    hide Sound, Quietly, SameWho, WithChan, ChangeList, ChangeOption, ChangeMemberMode;
    ListSameWho(s, setter, i, on, m, arg, now);
    OptionSameWho(s, i, on, m, arg);
    MemberModeSameWho(s, i, on, m, arg);
    var d := s.channels[i].data;
    WithChanSameWho(s, i, d.(modes := ToggleMode(d.modes, on, m)));
    QuietIfSameWho(s, ChangeMode(s, setter, i, on, m, arg, now).state);
  }

  lemma QuietTrans(a: Net, b: Net, c: Net)
    requires Sound(a) && Sound(b) && Sound(c) && Quietly(a, b) && Quietly(b, c)
    ensures Quietly(a, c)
  {
    hide Sound, NickKey, ChanKey;
  }

  lemma {:induction false} ModeLoopQuietly(s: Net, setter: Option<string>, i: nat, modes: string, args: seq<string>,
                                           arg: nat, on: bool, now: int)
    requires Sound(s) && i < |s.channels| && ChanmodesOk(s.info)
    ensures Quietly(s, ModeLoop(s, setter, i, modes, args, arg, on, now))
    decreases |modes|
  {
    hide Sound, Quietly, ChangeMode, ChanmodesOk;
    QuietlySame(s);
    if modes == "" {
    } else if modes[0] == '+' {
      ModeLoopQuietly(s, setter, i, modes[1..], args, arg, true, now);
    } else if modes[0] == '-' {
      ModeLoopQuietly(s, setter, i, modes[1..], args, arg, false, now);
    } else {
      var c := ChangeMode(s, setter, i, on, modes[0], Nth(args, arg), now);
      ChangeModeQuietly(s, setter, i, on, modes[0], Nth(args, arg), now);
      if c.taken.Some? {
        var next := if arg < |args| then arg + c.taken.value else arg;
        ModeLoopQuietly(c.state, setter, i, modes[1..], args, next, on, now);
        QuietTrans(s, c.state, ModeLoop(c.state, setter, i, modes[1..], args, next, on, now));
      }
    }
  }

  lemma DataQuietly(s: Net, l: Line, now: int)
    requires Sound(s) && Accepts(s, l) && Complete(l)
    requires (CommandOf(l) == TOPIC || CommandOf(l) == N332 || CommandOf(l) == N333)
    ensures Quietly(s, DataStep(s, l, now))
  {
    hide Sound, Quietly, CommandNamed;
    QuietIfSameWho(s, DataStep(s, l, now));
  }

  lemma QuietLineQuietly(s: Net, l: Line, now: int)
    requires Sound(s) && Accepts(s, l) && IsQuiet(s, l)
    ensures Quietly(s, Step(s, l, now))
  {
    hide Sound, Quietly, DataStep, ModeLine, MemberStep, SameWho, CommandNamed;
    QuietlySame(s);
    if Complete(l) {
      if CommandOf(l) == MODE {
        ModeQuietly(s, l, now);
      } else {
        DataQuietly(s, l, now);
      }
    }
  }

  lemma QuietlySame(s: Net)
    requires Sound(s)
    ensures Quietly(s, s)
  {}

  lemma ModeQuietly(s: Net, l: Line, now: int)
    requires Sound(s) && Accepts(s, l) && Complete(l) && CommandOf(l) == MODE && IsQuiet(s, l)
    ensures Quietly(s, ModeLine(s, l, now))
  {
    hide Sound, Quietly, ModeLoop, CommandNamed, ChanmodesOk;
    QuietlySame(s);
    var i := FindChan(s, l.args[1]);
    if i < |s.channels| {
      ModeLoopQuietly(s, SetterOf(s, NickPart(l.origin.value)), i, l.args[2], l.args, 3, true, now);
    }
  }

  lemma QuietRooms(s: Net, r: Net)
    requires Sound(s) && Sound(r) && Quietly(s, r)
    ensures Rooms(r) == Rooms(s)
  {
    SameSeatsRoster(s, r);
    SameRooms(s, r);
  }

  // ------------------------------------------------------------------------------ NAMES

  function Keys(s: Net, names: seq<string>): (r: set<string>) {
    set j | 0 <= j < |names| :: Key(s, StripPrefix(s.info, names[j]))
  }

  lemma PairsUnion(c: string, a: set<string>, b: set<string>)
    ensures Pairs(c, a + b) == Pairs(c, a) + Pairs(c, b) && Pairs(c, {}) == {}
  {}

  lemma {:induction false} AddNamesRoster(s: Net, i: nat, names: seq<string>)
    requires Sound(s) && Distinct(s) && i < |s.channels| && AllOnePrefix(s.info, names)
    requires forall j :: 0 <= j < |names| ==> names[j] != ""
    ensures var r := AddNames(s, i, names);
            && Chans(r) == Chans(s) && Roster(r) == Roster(s) + Pairs(ChanKey(s, i), Keys(s, names))
            && r.people[0] == s.people[0]
    decreases |names|
  {
    hide Distinct, AddMember, Roster, Chans, OnePrefix, ChanKey;
    if names == [] {
      PairsUnion(ChanKey(s, i), {}, {});
      assert Keys(s, names) == {};
    } else {
      AddMemberRoster(s, i, names[0]);
      AddMemberKeeps(s, i, names[0]);
      AddMemberMe(s, i, names[0]);
      AddNamesRoster(AddMember(s, i, names[0]), i, names[1..]);
      var n := Key(s, StripPrefix(s.info, names[0]));
      KeysCons(s, names);
      PairsUnion(ChanKey(s, i), {n}, Keys(s, names[1..]));
      assert Pairs(ChanKey(s, i), {n}) == {(ChanKey(s, i), n)};
    }
  }

  lemma KeysCons(s: Net, names: seq<string>)
    requires names != []
    ensures Keys(s, names) == {Key(s, StripPrefix(s.info, names[0]))} + Keys(s, names[1..])
  {
    assert forall j :: 0 < j < |names| ==> names[j] == names[1..][j - 1];
  }

  lemma AddMemberMe(s: Net, i: nat, name: string)
    requires Sound(s) && i < |s.channels| && OnePrefix(s.info, name)
    ensures AddMember(s, i, name).people[0] == s.people[0]
  {}

  /** The whole list replaces the members of a channel whose list was closed. */
  lemma ListRooms(s: Net, i: nat, mode: char, names: seq<string>)
    requires Sound(s) && Distinct(s) && i < |s.channels| && !s.channels[i].data.namreplyStarted
    requires AllOnePrefix(s.info, names)
    requires forall j :: 0 <= j < |names| ==> names[j] != ""
    ensures var r := AddNames(OpenNames(s, i, ModeText(mode)), i, names);
            && Rooms(r) == Rooms(s)[ChanKey(s, i) := Keys(s, names)]
            && Distinct(r) && MeKey(r) == MeKey(s)
  {
    hide Distinct, Roster, Chans, OnePrefix, ClearMembers, AddNames;
    var c := ChanKey(s, i);
    var s1 := WithChan(s, i, s.channels[i].data.(mode := mode));
    SameSeatsByWho(s, s1);
    SameSeatsRoster(s, s1);
    ClearMembersRoster(s1, i);
    ClearMembersKeeps(s1, i);
    var s2 := ClearMembers(s1, i);
    var o := OpenNames(s, i, ModeText(mode));
    assert s1.channels[i].data.namreplyStarted == false;
    assert o == WithChan(s2, i, s2.channels[i].data.(namreplyStarted := true));
    SameSeatsByWho(s2, o);
    SameSeatsRoster(s2, o);
    AddNamesRoster(o, i, names);
    AddNamesKeeps(o, i, names);
    assert Keys(o, names) == Keys(s, names);
    RoomReplaced(s, AddNames(o, i, names), i, Keys(s, names));
  }

  lemma RoomReplaced(s: Net, r: Net, i: nat, ns: set<string>)
    requires Sound(s) && Sound(r) && i < |s.channels| && Chans(r) == Chans(s)
    requires Roster(r) == WithoutChan(Roster(s), ChanKey(s, i)) + Pairs(ChanKey(s, i), ns)
    ensures Rooms(r) == Rooms(s)[ChanKey(s, i) := ns]
  {
    assert ChanKey(s, i) in Chans(s);
    hide Chans, Roster, Sound;
    NamedWithout(Roster(s), ChanKey(s, i), ns);
  }
}
