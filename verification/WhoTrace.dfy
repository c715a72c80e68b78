/** Where the time of a member's last WHO reply comes from: over a whole run, only a 352 line that
    names the member on that channel puts it there, and it stays with that member through changes
    of nick. */
module WhoTrace {
  import opened Base
  import opened Casemap
  import opened Info
  import opened Isupport
  import opened Line
  import opened State
  import opened Handlers
  import opened Unique
  import opened Seating

  /** Who was last seen in a WHO reply, when, and with which flags. */
  datatype Mark = Mark(nick: string, time: int, flags: Option<string>)

  function MarkAt(s: Net, i: nat, j: nat): (m: Mark)
    requires Sound(s) && i < |s.channels| && j < |s.channels[i].members|
  {
    Mark(NickKey(s, i, j), s.channels[i].members[j].lastUpdate, s.channels[i].members[j].lastFlags)
  }

  /** The marks of a channel's members; a time of 0 is no mark. */
  function Marks(s: Net, i: nat): (r: set<Mark>)
    requires Sound(s) && i < |s.channels|
  {
    set j | 0 <= j < |s.channels[i].members| && s.channels[i].members[j].lastUpdate != 0 :: MarkAt(s, i, j)
  }

  /** Every mark in `r` was in the channel of the same name in `s`. */
  predicate Derived(s: Net, r: Net)
    requires Sound(s) && Sound(r)
  {
    && r.info.casemapping == s.info.casemapping
    && forall i :: 0 <= i < |r.channels| ==> Inherited(s, r, i)
  }

  predicate Inherited(s: Net, r: Net, i: nat)
    requires Sound(s) && Sound(r) && i < |r.channels|
  {
    Marks(r, i) == {} ||
    exists x :: 0 <= x < |s.channels| && s.channels[x].data.name == r.channels[i].data.name &&
        Marks(r, i) <= Marks(s, x)
  }

  lemma DerivedRefl(s: Net)
    requires Sound(s)
    ensures Derived(s, s)
  {
    hide Sound, Marks;
    forall i | 0 <= i < |s.channels|
      ensures Inherited(s, s, i)
    {
      assert Marks(s, i) <= Marks(s, i);
    }
  }

  lemma DerivedTrans(a: Net, b: Net, c: Net)
    requires Sound(a) && Sound(b) && Sound(c) && Derived(a, b) && Derived(b, c)
    ensures Derived(a, c)
  {
    hide Marks, Sound;
    forall i | 0 <= i < |c.channels|
      ensures Inherited(a, c, i)
    {
      assert Inherited(b, c, i);
      if Marks(c, i) != {} {
        var x :| 0 <= x < |b.channels| && b.channels[x].data.name == c.channels[i].data.name &&
            Marks(c, i) <= Marks(b, x);
        assert Inherited(a, b, x);
      }
    }
  }

  /** Channel by channel: the same name, and no new marks. */
  lemma DerivedByIndex(s: Net, r: Net)
    requires Sound(s) && Sound(r) && r.info.casemapping == s.info.casemapping && |r.channels| <= |s.channels|
    requires forall i :: 0 <= i < |r.channels| ==> r.channels[i].data.name == s.channels[i].data.name
    requires forall i :: 0 <= i < |r.channels| ==> Marks(r, i) <= Marks(s, i)
    ensures Derived(s, r)
  {
    hide Marks, Sound;
  }

  // ----------------------------------------------------------------------- operations

  /** The same people, by name, hold the same seats and marks. */
  predicate SameMarks(s: Net, r: Net)
    requires Sound(s) && Sound(r)
  {
    && r.info.casemapping == s.info.casemapping && |r.channels| == |s.channels|
    && (forall i :: 0 <= i < |s.channels| ==>
          r.channels[i].data.name == s.channels[i].data.name && |r.channels[i].members| == |s.channels[i].members|)
    && (forall i, j :: 0 <= i < |s.channels| && 0 <= j < |s.channels[i].members| ==> MarkAt(r, i, j) == MarkAt(s, i, j))
  }

  lemma SameMarksDerived(s: Net, r: Net)
    requires Sound(s) && Sound(r) && SameMarks(s, r)
    ensures Derived(s, r)
    ensures forall i :: 0 <= i < |s.channels| ==> Marks(r, i) == Marks(s, i)
  {
    hide Sound, NickKey, MarkAt;
    forall i | 0 <= i < |s.channels|
      ensures Marks(r, i) == Marks(s, i)
    {
      assert forall j :: 0 <= j < |s.channels[i].members| ==> MarkAt(r, i, j).time == MarkAt(s, i, j).time;
      MarkTimes(s, i);
      MarkTimes(r, i);
    }
    DerivedByIndex(s, r);
  }

  lemma MarkTimes(s: Net, i: nat)
    requires Sound(s) && i < |s.channels|
    ensures forall j :: 0 <= j < |s.channels[i].members| ==> MarkAt(s, i, j).time == s.channels[i].members[j].lastUpdate
  {}

  /** Only people's names count, and only up to folding; data may differ. */
  lemma SameMembersDerived(s: Net, r: Net)
    requires Sound(s) && Sound(r) && r.info.casemapping == s.info.casemapping && |r.channels| == |s.channels|
    requires |s.people| <= |r.people|
    requires forall k :: 0 <= k < |s.people| ==> Folded(s.info, r.people[k].nick) == Folded(s.info, s.people[k].nick)
    requires forall i :: 0 <= i < |s.channels| ==>
               r.channels[i].data.name == s.channels[i].data.name && r.channels[i].members == s.channels[i].members
    ensures SameMarks(s, r) && Derived(s, r)
  {
    SameMarksDerived(s, r);
  }

  /** Members of one channel replaced by some of themselves, possibly with other modes. */
  lemma WithMembersDerived(s: Net, i: nat, ms: seq<Member>)
    requires Sound(s) && i < |s.channels| && SoundMembers(ms, |s.people|)
    requires forall j :: 0 <= j < |ms| && ms[j].lastUpdate != 0 ==> ComesFrom(ms[j], s.channels[i].members)
    ensures Derived(s, WithMembers(s, i, ms))
  {
    var r := WithMembers(s, i, ms);
    forall x | 0 <= x < |s.channels|
      ensures Marks(r, x) <= Marks(s, x)
    {
      if x == i {
        forall j | 0 <= j < |ms| && ms[j].lastUpdate != 0
          ensures MarkAt(r, i, j) in Marks(s, i)
        {
          var y :| 0 <= y < |s.channels[i].members| && SameSeat(ms[j], s.channels[i].members[y]);
          assert MarkAt(r, i, j) == MarkAt(s, i, y);
        }
      } else {
        assert r.channels[x] == s.channels[x];
        assert forall j :: 0 <= j < |s.channels[x].members| ==> MarkAt(r, x, j) == MarkAt(s, x, j);
      }
    }
    hide Marks, Sound;
    DerivedByIndex(s, r);
  }

  predicate SameSeat(m: Member, n: Member) {
    m.who == n.who && m.lastUpdate == n.lastUpdate && m.lastFlags == n.lastFlags
  }

  predicate ComesFrom(m: Member, ms: seq<Member>) { exists y :: 0 <= y < |ms| && SameSeat(m, ms[y]) }

  lemma AddChanDerived(s: Net, name: string)
    requires Sound(s)
    ensures Derived(s, AddChan(s, name))
  {
    DerivedRefl(s);
    var r := AddChan(s, name);
    if !KnownChan(s, name) {
      forall i | 0 <= i < |r.channels|
        ensures Inherited(s, r, i)
      {
        if i < |s.channels| {
          assert r.channels[i] == s.channels[i];
          assert forall j :: 0 <= j < |s.channels[i].members| ==> MarkAt(r, i, j) == MarkAt(s, i, j);
          assert Marks(r, i) <= Marks(s, i);
        } else {
          assert Marks(r, i) == {};
        }
      }
    }
  }

  lemma AddPersonDerived(s: Net, name: string)
    requires Sound(s)
    ensures Derived(s, AddPerson(s, name))
  {
    hide Sound;
    SameMembersDerived(s, AddPerson(s, name));
  }

  lemma AddMemberDerived(s: Net, i: nat, name: string)
    requires Sound(s) && i < |s.channels| && OnePrefix(s.info, name)
    ensures Derived(s, AddMember(s, i, name))
  {
    hide Derived;
    var realname := StripPrefix(s.info, name);
    DerivedRefl(s);
    if FindMember(s, i, realname) == |s.channels[i].members| {
      var s1, ms := AddPerson(s, realname), s.channels[i].members;
      var m := Member(FindPerson(s, realname), PrefixMode(s.info, name), 0, None);
      AddPersonDerived(s, realname);
      NotAMember(s, i, realname);
      forall j | 0 <= j < |ms + [m]| && (ms + [m])[j].lastUpdate != 0
        ensures ComesFrom((ms + [m])[j], s1.channels[i].members)
      {
        assert SameSeat((ms + [m])[j], ms[j]);
      }
      WithMembersDerived(s1, i, ms + [m]);
      DerivedTrans(s, s1, AddMember(s, i, name));
    }
  }

  lemma DropPersonDerived(s: Net, k: nat)
    requires Sound(s) && 1 <= k < |s.people| && !OnAny(s, k)
    ensures Derived(s, DropPerson(s, k))
  {
    var r := DropPerson(s, k);
    DropPersonRoster(s, k);
    assert SameMarks(s, r);
    SameMarksDerived(s, r);
  }

  lemma DropMemberDerived(s: Net, i: nat, j: nat)
    requires Sound(s) && i < |s.channels| && j < |s.channels[i].members|
    ensures Derived(s, DropMember(s, i, j))
  {
    hide Derived;
    var ms, k, s1 := s.channels[i].members, s.channels[i].members[j].who, RemoveMember(s, i, j);
    var r := Without(ms, j);
    forall x | 0 <= x < |r|
      ensures ComesFrom(r[x], ms)
    {
      assert SameSeat(r[x], ms[if x < j then x else x + 1]);
    }
    WithMembersDerived(s, i, r);
    if !OnAny(s1, k) && !s1.people[k].query {
      DropPersonDerived(s1, k);
      DerivedTrans(s, s1, DropPerson(s1, k));
    }
  }

  lemma {:induction false} ClearDerived(s: Net, i: nat)
    requires Sound(s) && i < |s.channels|
    ensures Derived(s, ClearMembers(s, i))
    decreases |s.channels[i].members|
  {
    hide Derived, DropMember, Sound;
    DerivedRefl(s);
    if s.channels[i].members != [] {
      DropMemberDerived(s, i, 0);
      ClearDerived(DropMember(s, i, 0), i);
      DerivedTrans(s, DropMember(s, i, 0), ClearMembers(s, i));
    }
  }

  lemma DropChanDerived(s: Net, i: nat)
    requires Sound(s) && i < |s.channels|
    ensures Derived(s, DropChan(s, i))
  {
    hide ClearMembers, Derived, Sound;
    ClearDerived(s, i);
    ChanGoneDerived(ClearMembers(s, i), i);
    DerivedTrans(s, ClearMembers(s, i), DropChan(s, i));
  }

  lemma ChanGoneDerived(s: Net, i: nat)
    requires Sound(s) && i < |s.channels|
    ensures Sound(s.(channels := Without(s.channels, i))) && Derived(s, s.(channels := Without(s.channels, i)))
  {
    var r := s.(channels := Without(s.channels, i));
    assert Sound(r);
    hide Sound;
    forall x | 0 <= x < |r.channels|
      ensures Inherited(s, r, x)
    {
      var y := if x < i then x else x + 1;
      assert r.channels[x] == s.channels[y];
      assert forall j :: 0 <= j < |s.channels[y].members| ==> MarkAt(r, x, j) == MarkAt(s, y, j);
      assert Marks(r, x) <= Marks(s, y);
    }
  }

  lemma LeaveAllDerived(s: Net, k: nat)
    requires Sound(s)
    ensures Derived(s, LeaveAll(s, k))
  {
    var r := LeaveAll(s, k);
    forall i | 0 <= i < |r.channels|
      ensures Marks(r, i) <= Marks(s, i)
    {
      StayersMarks(s, k, i);
    }
    hide Marks, Sound, LeaveAll;
    DerivedByIndex(s, r) by { LeaveAllNames(s, k); }
  }

  lemma LeaveAllNames(s: Net, k: nat)
    requires Sound(s)
    ensures var r := LeaveAll(s, k);
            r.info == s.info && |r.channels| == |s.channels| &&
            forall i :: 0 <= i < |s.channels| ==> r.channels[i].data.name == s.channels[i].data.name
  {}

  lemma StayersMarks(s: Net, k: nat, i: nat)
    requires Sound(s) && i < |s.channels|
    ensures Marks(LeaveAll(s, k), i) <= Marks(s, i)
  {
    var r := LeaveAll(s, k);
    var a, b := s.channels[i].members, r.channels[i].members;
    forall j | 0 <= j < |b|
      ensures exists y :: 0 <= y < |a| && MarkAt(s, i, y) == MarkAt(r, i, j) && a[y].lastUpdate == b[j].lastUpdate
    {
      assert b[j] in b;
      var y :| 0 <= y < |a| && a[y] == b[j];
      assert MarkAt(s, i, y) == MarkAt(r, i, j);
    }
  }

  lemma QuitDerived(s: Net, nick: string)
    requires Sound(s)
    ensures Derived(s, Quit(s, nick))
  {
    hide Derived, LeaveAll, DropPerson;
    DerivedRefl(s);
    var k := FindPerson(s, nick);
    if k < |s.people| {
      LeaveAllDerived(s, k);
      if k > 0 {
        DropPersonDerived(LeaveAll(s, k), k);
        DerivedTrans(s, LeaveAll(s, k), ForgetPerson(s, k));
      }
    }
  }

  // ---------------------------------------------------------------------------- lines

  /** Somebody's record changes, but for the spelling of the nick. */
  lemma RespellDerived(s: Net, k: nat, n: Nick)
    requires Sound(s) && k < |s.people| && Eq(s.info, s.people[k].nick, n.nick) && (k == 0 ==> n.query)
    ensures Derived(s, WithPerson(s, k, n)) && SameMarks(s, WithPerson(s, k, n))
  {
    SameMembersDerived(s, WithPerson(s, k, n));
  }

  lemma JoinOneDerived(s: Net, name: string, origin: string)
    requires Sound(s) && '!' in origin && !HasPrefix(s.info, NickPart(origin))
    ensures OnePrefix(s.info, NickPart(origin)) && Derived(s, JoinOne(s, name, origin))
  {
    hide Derived, AddMember, SetHostmask, FindMember;
    var s1, i, nick := AddChan(s, name), FindChan(s, name), NickPart(origin);
    var s2 := AddMember(s1, i, nick);
    AddChanDerived(s, name);
    AddMemberDerived(s1, i, nick);
    DerivedTrans(s, s1, s2);
    AddMemberKeeps(s1, i, nick);
    var k := s2.channels[i].members[FindMember(s1, i, nick)].who;
    HostmaskRespells(s2.people[k], origin);
    RespellDerived(s2, k, SetHostmask(s2.people[k], origin));
    DerivedTrans(s, s2, JoinOne(s, name, origin));
  }

  lemma {:induction false} JoinAllDerived(s: Net, names: seq<string>, origin: string)
    requires Sound(s) && '!' in origin && !HasPrefix(s.info, NickPart(origin))
    ensures OnePrefix(s.info, NickPart(origin)) && Derived(s, JoinAll(s, names, origin))
    decreases |names|
  {
    hide Derived, JoinOne, Sound, HasPrefix;
    DerivedRefl(s);
    if names != [] {
      JoinOneDerived(s, names[0], origin);
      JoinAllDerived(JoinOne(s, names[0], origin), names[1..], origin);
      DerivedTrans(s, JoinOne(s, names[0], origin), JoinAll(s, names, origin));
    }
  }

  lemma PartOneDerived(s: Net, name: string, nick: string)
    requires Sound(s)
    ensures Derived(s, PartOne(s, name, nick)) && Derived(s, KickOne(s, name, nick))
  {
    hide Derived, DropMember, DropChan, FindChan, FindMember, IsMe;
    DerivedRefl(s);
    var i := FindChan(s, name);
    if i < |s.channels| {
      DropChanDerived(s, i);
      var j := FindMember(s, i, nick);
      if j < |s.channels[i].members| {
        var s1 := DropMember(s, i, j);
        DropMemberDerived(s, i, j);
        DropChanDerived(s1, i);
        DerivedTrans(s, s1, DropChan(s1, i));
      }
    }
  }

  lemma {:induction false} PartAllDerived(s: Net, names: seq<string>, nick: string)
    requires Sound(s)
    ensures Derived(s, PartAll(s, names, nick))
    decreases |names|
  {
    hide Derived, PartOne, KickOne, Sound;
    DerivedRefl(s);
    if names != [] {
      PartOneDerived(s, names[0], nick);
      PartAllDerived(PartOne(s, names[0], nick), names[1..], nick);
      DerivedTrans(s, PartOne(s, names[0], nick), PartAll(s, names, nick));
    }
  }

  lemma {:induction false} KickAllDerived(s: Net, names: seq<string>, nicks: seq<string>)
    requires Sound(s)
    ensures Derived(s, KickAll(s, names, nicks))
    decreases |names|
  {
    hide Derived, PartOne, KickOne, Sound;
    DerivedRefl(s);
    if names != [] && nicks != [] {
      PartOneDerived(s, names[0], nicks[0]);
      KickAllDerived(KickOne(s, names[0], nicks[0]), names[1..], nicks[1..]);
      DerivedTrans(s, KickOne(s, names[0], nicks[0]), KickAll(s, names, nicks));
    }
  }

  lemma {:induction false} AddNamesDerived(s: Net, i: nat, names: seq<string>)
    requires Sound(s) && i < |s.channels| && AllOnePrefix(s.info, names)
    ensures Derived(s, AddNames(s, i, names))
    decreases |names|
  {
    hide Derived, AddMember, Sound, OnePrefix;
    DerivedRefl(s);
    if names != [] {
      var s1 := if names[0] == "" then s else AddMember(s, i, names[0]);
      AddMemberDerived(s, i, names[0]);
      AddNamesDerived(s1, i, names[1..]);
      DerivedTrans(s, s1, AddNames(s, i, names));
    }
  }

  lemma WithChanDerived(s: Net, i: nat, d: ChanData)
    requires Sound(s) && i < |s.channels| && d.name == s.channels[i].data.name
    ensures Derived(s, WithChan(s, i, d))
  {
    hide Sound;
    SameMembersDerived(s, WithChan(s, i, d));
  }

  lemma NamReplyDerived(s: Net, i: nat, mode: string, names: seq<string>)
    requires Sound(s) && i < |s.channels| && AllOnePrefix(s.info, names)
    ensures Derived(s, NamReply(s, i, mode, names))
  {
    hide Derived, ClearMembers, AddNames, Sound, AllOnePrefix, WithChan;
    var d := s.channels[i].data.(mode := if mode == "" then '\0' else mode[0]);
    var s1, o := WithChan(s, i, d), OpenNames(s, i, mode);
    WithChanDerived(s, i, d);
    WithChanSize(s, i, d);
    ClearDerived(s1, i);
    var c := ClearMembers(s1, i);
    DerivedTrans(s, s1, c);
    WithChanDerived(c, i, c.channels[i].data.(namreplyStarted := true));
    DerivedTrans(s, c, WithChan(c, i, c.channels[i].data.(namreplyStarted := true)));
    AddNamesDerived(o, i, names);
    DerivedTrans(s, o, NamReply(s, i, mode, names));
  }

  lemma WithChanSize(s: Net, i: nat, d: ChanData)
    requires i < |s.channels|
    ensures |WithChan(s, i, d).channels| == |s.channels| && WithChan(s, i, d).channels[i].data == d
  {}

  lemma DataDerived(s: Net, l: Line, now: int)
    requires Sound(s) && Accepts(s, l) && Complete(l) && IsDataLine(CommandOf(l))
    ensures Derived(s, DataStep(s, l, now))
  {
    hide Sound, CommandNamed, FindChan, StringToModes, StrtolAuto, Atoi, Derived, DataChange, WithChan;
    DerivedRefl(s);
    var i := if CommandOf(l) == TOPIC && l.origin.None? then |s.channels| else FindChan(s, DataTarget(l));
    if i < |s.channels| {
      WithChanDerived(s, i, DataChange(s.channels[i].data, l, now));
    }
  }

  lemma ChangeModeDerived(s: Net, setter: Option<string>, i: nat, on: bool, m: char, arg: Option<string>, now: int)
    requires Sound(s) && i < |s.channels| && ChanmodesOk(s.info)
    ensures Derived(s, ChangeMode(s, setter, i, on, m, arg, now).state)
  {
    hide Derived, Sound, ChangeMemberMode, ChangeList, ChangeOption, IsPrefixMode, ChanmodesOk, WithChan;
    DerivedRefl(s);
    MemberModeDerived(s, i, on, m, arg);
    ListDerived(s, setter, i, on, m, arg, now);
    OptionDerived(s, i, on, m, arg);
    var d := s.channels[i].data;
    WithChanDerived(s, i, d.(modes := ToggleMode(d.modes, on, m)));
  }

  lemma ListDerived(s: Net, setter: Option<string>, i: nat, on: bool, m: char, arg: Option<string>, now: int)
    requires Sound(s) && i < |s.channels|
    ensures Sound(ChangeList(s, setter, i, on, m, arg, now).state)
    ensures Derived(s, ChangeList(s, setter, i, on, m, arg, now).state)
  {
    hide Derived, Sound, WithChan;
    var d := s.channels[i].data;
    DerivedRefl(s);
    forall l: map<char, seq<ListEntry>>
      ensures Derived(s, WithChan(s, i, d.(lists := l)))
    {
      WithChanDerived(s, i, d.(lists := l));
    }
  }

  lemma OptionDerived(s: Net, i: nat, on: bool, m: char, arg: Option<string>)
    requires Sound(s) && i < |s.channels|
    ensures Sound(ChangeOption(s, i, on, m, arg).state) && Derived(s, ChangeOption(s, i, on, m, arg).state)
  {
    hide Derived, Sound, WithChan;
    var d := s.channels[i].data;
    DerivedRefl(s);
    forall o: map<char, string>
      ensures Derived(s, WithChan(s, i, d.(options := o)))
    {
      WithChanDerived(s, i, d.(options := o));
    }
  }

  lemma MemberModeDerived(s: Net, i: nat, on: bool, m: char, arg: Option<string>)
    requires Sound(s) && i < |s.channels|
    ensures Derived(s, ChangeMemberMode(s, i, on, m, arg).state)
  {
    hide Derived;
    DerivedRefl(s);
    if arg.Some? {
      var j, ms := FindMember(s, i, arg.value), s.channels[i].members;
      if j < |ms| {
        var r := ms[j := ms[j].(modes := ToggleMode(ms[j].modes, on, m))];
        forall x | 0 <= x < |r|
          ensures ComesFrom(r[x], ms)
        {
          assert SameSeat(r[x], ms[x]);
        }
        WithMembersDerived(s, i, r);
      }
    }
  }

  lemma {:induction false} ModeLoopDerived(s: Net, setter: Option<string>, i: nat, modes: string, args: seq<string>,
                                           arg: nat, on: bool, now: int)
    requires Sound(s) && i < |s.channels| && ChanmodesOk(s.info)
    ensures Derived(s, ModeLoop(s, setter, i, modes, args, arg, on, now))
    decreases |modes|
  {
    hide Sound, ChangeMode, ChanmodesOk, Derived;
    DerivedRefl(s);
    if modes == "" {
    } else if modes[0] == '+' {
      ModeLoopDerived(s, setter, i, modes[1..], args, arg, true, now);
    } else if modes[0] == '-' {
      ModeLoopDerived(s, setter, i, modes[1..], args, arg, false, now);
    } else {
      var c := ChangeMode(s, setter, i, on, modes[0], Nth(args, arg), now);
      ChangeModeDerived(s, setter, i, on, modes[0], Nth(args, arg), now);
      if c.taken.Some? {
        var next := if arg < |args| then arg + c.taken.value else arg;
        ModeLoopDerived(c.state, setter, i, modes[1..], args, next, on, now);
        DerivedTrans(s, c.state, ModeLoop(c.state, setter, i, modes[1..], args, next, on, now));
      }
    }
  }

  lemma ModeLineDerived(s: Net, l: Line, now: int)
    requires Sound(s) && Accepts(s, l) && CommandOf(l) == MODE && Complete(l)
    ensures Derived(s, ModeLine(s, l, now))
  {
    hide Sound, ModeLoop, Derived, CommandNamed, ChanmodesOk, WithPerson, AddPerson, FindPerson;
    DerivedRefl(s);
    if IsChannelName(s.info, l.args[1]) {
      var i := FindChan(s, l.args[1]);
      if i < |s.channels| {
        ModeLoopDerived(s, SetterOf(s, NickPart(l.origin.value)), i, l.args[2], l.args, 3, true, now);
      }
    } else {
      var p := AddPerson(s, l.args[1]).people[FindPerson(s, l.args[1])];
      MeStaysQuery(s, l.args[1]);
      TouchDerived(s, l.args[1], p.(modes := UserModes(p.modes, l.args[2], true)));
    }
  }

  /** Somebody, possibly new, changes but for the nick. */
  lemma TouchDerived(s: Net, name: string, n: Nick)
    requires Sound(s)
    requires var s1, k := AddPerson(s, name), FindPerson(s, name);
             Eq(s.info, s1.people[k].nick, n.nick) && (k == 0 ==> n.query)
    ensures Derived(s, WithPerson(AddPerson(s, name), FindPerson(s, name), n))
  {
    hide Sound, Derived, WithPerson;
    AddPersonDerived(s, name);
    var s1, k := AddPerson(s, name), FindPerson(s, name);
    assert s1.info == s.info;
    RespellDerived(s1, k, n);
    DerivedTrans(s, s1, WithPerson(s1, k, n));
  }

  lemma UserHostDerived(s: Net, entry: string)
    requires Sound(s) && UserHostOk(s, entry) && '!' !in entry[..IndexOf(entry, '=')]
    ensures Derived(s, UserHost(s, entry))
  {
    hide Sound, Derived, SetHostmask, AddPerson, WithPerson;
    DerivedRefl(s);
    var e := IndexOf(entry, '=');
    if e < |entry| {
      var nick := entry[..e];
      var mask, p := nick + "!" + entry[e + 2..], AddPerson(s, nick).people[FindPerson(s, nick)];
      assert mask[e] == '!';
      NickPartClean(mask);
      HostmaskRespells(p, mask);
      AddPersonKeeps(s, nick);
      MeStaysQuery(s, nick);
      TouchDerived(s, nick, SetHostmask(p, mask));
    }
  }

  lemma MeStaysQuery(s: Net, name: string)
    requires Sound(s)
    ensures FindPerson(s, name) == 0 ==> AddPerson(s, name).people[0].query
  {}

  lemma {:induction false} UserHostsDerived(s: Net, entries: seq<string>)
    requires Sound(s) && UserHostsOk(s, entries) && PlainEntries(entries)
    ensures Derived(s, UserHosts(s, entries))
    decreases |entries|
  {
    hide Sound, Derived, UserHost, UserHostOk;
    DerivedRefl(s);
    if entries != [] {
      UserHostDerived(s, entries[0]);
      UserHostsDerived(UserHost(s, entries[0]), entries[1..]);
      DerivedTrans(s, UserHost(s, entries[0]), UserHosts(s, entries));
    }
  }

  /** Lines that change nobody's nick, but for its spelling. */
  predicate KeepsNicks(s: Net, l: Line)
    requires Sound(s) && Accepts(s, l)
  {
    Complete(l) ==>
      match CommandOf(l)
      case JOIN => l.origin.Some? ==> !HasPrefix(s.info, NickPart(l.origin.value))
      case N302 => PlainEntries(StrSplit(Strip(l.args[2]), ' '))
      case N005 => ParseTokens(s.info, l.args[2..|l.args| - 1]).casemapping == s.info.casemapping
      case _ => true
  }

  lemma OtherDerived(s: Net, l: Line, now: int)
    requires Sound(s) && Accepts(s, l) && Complete(l) && !IsMemberLine(CommandOf(l)) && !IsDataLine(CommandOf(l))
    requires KeepsNicks(s, l) && CommandOf(l) != NICK && CommandOf(l) != N001
    ensures Derived(s, OtherStep(s, l, now))
  {
    hide Derived, Sound, ModeLine, UserHosts, UserHostsOk, FindPerson, CommandNamed, ParseTokens, StringToModes;
    hide WithPerson, AddPerson;
    DerivedRefl(s);
    SoundPeople(s);
    var r := OtherStep(s, l, now);
    match CommandOf(l) {
      case MODE => ModeLineDerived(s, l, now);
      case N302 => UserHostsDerived(s, StrSplit(Strip(l.args[2]), ' '));
      case PRIVMSG =>
        if l.origin.Some? {
          var name := NickPart(l.origin.value);
          TouchDerived(s, name, AddPerson(s, name).people[FindPerson(s, name)].(query := true));
        }
      case N221 => RespellDerived(s, 0, s.people[0].(modes := StringToModes(l.args[1])));
      case N004 => SameMembersDerived(s, r);
      case N005 => SameMembersDerived(s, r);
      case N305 => SameMembersDerived(s, r);
      case N306 => SameMembersDerived(s, r);
      case N315 =>
      case OTHER =>
    }
  }

  lemma SoundPeople(s: Net)
    requires Sound(s)
    ensures |s.people| >= 1 && s.people[0].query
  {}

  lemma MemberDerived(s: Net, l: Line, now: int)
    requires Sound(s) && Accepts(s, l) && Complete(l) && IsMemberLine(CommandOf(l)) && CommandOf(l) != N352
    requires KeepsNicks(s, l)
    ensures Derived(s, MemberStep(s, l, now))
  {
    hide Sound, Derived, JoinAll, PartAll, KickAll, Quit, NamReply, CommandNamed, HasPrefix;
    DerivedRefl(s);
    var a := l.args;
    match CommandOf(l) {
      case JOIN => if l.origin.Some? { JoinAllDerived(s, StrSplit(a[1], ','), l.origin.value); }
      case PART => if l.origin.Some? { PartAllDerived(s, StrSplit(a[1], ','), NickPart(l.origin.value)); }
      case KICK => if l.origin.Some? { KickAllDerived(s, StrSplit(a[1], ','), StrSplit(a[2], ',')); }
      case QUIT => if l.origin.Some? { QuitDerived(s, NickPart(l.origin.value)); }
      case N353 => if KnownChan(s, a[3]) { NamReplyDerived(s, FindChan(s, a[3]), a[2], StrSplit(a[4], ' ')); }
    }
  }

  // ------------------------------------------------------------------------- lineages

  /** An event and the state it found. */
  datatype Moment = Moment(before: Net, event: Event)

  function Moments(s: Net, es: seq<Event>): (r: seq<Moment>)
    requires Sound(s) && Accepted(s, es)
    ensures |r| == |es| && forall k :: 0 <= k < |r| ==> r[k].event == es[k]
    decreases |es|
  {
    if es == [] then [] else [Moment(s, es[0])] + Moments(Step(s, es[0].line, es[0].now), es[1..])
  }

  /** A WHO reply that names this member of this channel, at this time and with these flags. */
  predicate IsWhoOf(m: Moment, chan: string, mark: Mark) {
    && Complete(m.event.line) && CommandOf(m.event.line) == N352
    && Eq(m.before.info, m.event.line.args[2], chan)
    && Folded(m.before.info, StripPrefix(m.before.info, m.event.line.args[6])) == mark.nick
    && m.event.now == mark.time && Some(m.event.line.args[7]) == mark.flags
  }

  predicate Listed(s: Net, chan: string, mark: Mark) {
    Sound(s) && exists i :: 0 <= i < |s.channels| && s.channels[i].data.name == chan && mark in Marks(s, i)
  }

  /** A nick stays what it is, but for a NICK line of its owner or the welcome of `me`. */
  predicate MayBecome(m: Moment, was: string, next: string) {
    || was == next
    || (CommandOf(m.event.line) == NICK && Complete(m.event.line) && m.event.line.origin.Some? &&
        Folded(m.before.info, NickPart(m.event.line.origin.value)) == was &&
        Folded(m.before.info, m.event.line.args[1]) == next)
    || (CommandOf(m.event.line) == N001 && Complete(m.event.line) && |m.before.people| >= 1 &&
        Folded(m.before.info, m.before.people[0].nick) == was && Folded(m.before.info, m.event.line.args[1]) == next)
  }

  /** The history of one mark: event `k` is the WHO reply for the member, who from then on has been
      on the channel all the time, under the nicks `names`. */
  predicate Lineage(past: seq<Moment>, k: nat, names: seq<string>, chan: string, time: int, flags: Option<string>) {
    && k < |past| && |names| == |past| - k
    && IsWhoOf(past[k], chan, Mark(names[0], time, flags))
    && (forall j :: 1 <= j < |names| ==> Continues(past[k + j], chan, names[j - 1], names[j], time, flags))
  }

  predicate Continues(m: Moment, chan: string, was: string, next: string, time: int, flags: Option<string>) {
    Listed(m.before, chan, Mark(was, time, flags)) && MayBecome(m, was, next)
  }

  ghost predicate HasLineage(past: seq<Moment>, chan: string, mark: Mark) {
    exists k: nat, names: seq<string> :: Lineage(past, k, names, chan, mark.time, mark.flags) &&
        names[|names| - 1] == mark.nick
  }

  /** Every mark has a history. */
  ghost predicate Traced(s: Net, past: seq<Moment>)
    requires Sound(s)
  {
    forall i, mark :: 0 <= i < |s.channels| && mark in Marks(s, i) ==> HasLineage(past, s.channels[i].data.name, mark)
  }

  lemma LineageGrows(past: seq<Moment>, m: Moment, chan: string, was: Mark, next: string)
    requires HasLineage(past, chan, was) && Listed(m.before, chan, was) && MayBecome(m, was.nick, next)
    ensures HasLineage(past + [m], chan, was.(nick := next))
  {
    hide IsWhoOf, Listed, MayBecome;
    var k: nat, names: seq<string> :| Lineage(past, k, names, chan, was.time, was.flags) &&
        names[|names| - 1] == was.nick;
    var all, more := past + [m], names + [next];
    assert all[k] == past[k] && more[0] == names[0];
    forall j | 1 <= j < |more|
      ensures Continues(all[k + j], chan, more[j - 1], more[j], was.time, was.flags)
    {
      if j < |names| {
        assert all[k + j] == past[k + j];
      } else {
        assert Continues(m, chan, was.nick, next, was.time, was.flags);
      }
    }
    assert Lineage(all, k, more, chan, was.time, was.flags);
  }

  lemma LineageStarts(past: seq<Moment>, m: Moment, chan: string, mark: Mark)
    requires IsWhoOf(m, chan, mark)
    ensures HasLineage(past + [m], chan, mark)
  {
    assert (past + [m])[|past|] == m;
    assert Lineage(past + [m], |past|, [mark.nick], chan, mark.time, mark.flags);
  }

  /** A line that derives its marks from those before. */
  lemma DerivedTraced(s: Net, r: Net, past: seq<Moment>, e: Event)
    requires Sound(s) && Sound(r) && Derived(s, r) && Traced(s, past)
    ensures Traced(r, past + [Moment(s, e)])
  {
    hide Marks, Sound, HasLineage, MayBecome;
    var m := Moment(s, e);
    forall i, mark | 0 <= i < |r.channels| && mark in Marks(r, i)
      ensures HasLineage(past + [m], r.channels[i].data.name, mark)
    {
      assert Inherited(s, r, i);
      var x :| 0 <= x < |s.channels| && s.channels[x].data.name == r.channels[i].data.name &&
          Marks(r, i) <= Marks(s, x);
      assert mark in Marks(s, x);
      assert MayBecome(m, mark.nick, mark.nick) by { StaysItself(m, mark.nick); }
      LineageGrows(past, m, r.channels[i].data.name, mark, mark.nick);
    }
  }

  lemma StaysItself(m: Moment, nick: string)
    ensures MayBecome(m, nick, nick)
  {}

  /** A rename: every mark is old, or that of the member renamed. */
  lemma RenamedMarks(s: Net, k: nat, n: Nick, i: nat, mark: Mark)
    requires Sound(s) && k < |s.people| && (k == 0 ==> n.query) && i < |s.channels|
    requires mark in Marks(WithPerson(s, k, n), i)
    ensures mark in Marks(s, i) ||
            (mark.nick == Folded(s.info, n.nick) && mark.(nick := Folded(s.info, s.people[k].nick)) in Marks(s, i))
  {
    var r := WithPerson(s, k, n);
    var j :| 0 <= j < |r.channels[i].members| && r.channels[i].members[j].lastUpdate != 0 && mark == MarkAt(r, i, j);
    assert MarkAt(s, i, j) in Marks(s, i);
  }

  lemma RenameTraced(s: Net, k: nat, n: Nick, past: seq<Moment>, e: Event)
    requires Sound(s) && k < |s.people| && (k == 0 ==> n.query) && Traced(s, past)
    requires MayBecome(Moment(s, e), Folded(s.info, s.people[k].nick), Folded(s.info, n.nick))
    ensures Traced(WithPerson(s, k, n), past + [Moment(s, e)])
  {
    hide Sound, Marks, HasLineage, MayBecome;
    var m, r, was := Moment(s, e), WithPerson(s, k, n), Folded(s.info, s.people[k].nick);
    forall i, mark | 0 <= i < |r.channels| && mark in Marks(r, i)
      ensures HasLineage(past + [m], r.channels[i].data.name, mark)
    {
      RenamedMarks(s, k, n, i, mark);
      StaysItself(m, mark.nick);
      if mark in Marks(s, i) {
        LineageGrows(past, m, s.channels[i].data.name, mark, mark.nick);
      } else {
        LineageGrows(past, m, s.channels[i].data.name, mark.(nick := was), mark.nick);
      }
    }
  }

  lemma NickTraced(s: Net, l: Line, now: int, past: seq<Moment>)
    requires Sound(s) && CommandOf(l) == NICK && Complete(l) && l.origin.Some? && Traced(s, past)
    ensures Traced(RenameStep(s, NickPart(l.origin.value), l.args[1]), past + [Moment(s, Event(l, now))])
  {
    hide Sound, Marks, HasLineage, CommandNamed, Derived;
    var name, to, e := NickPart(l.origin.value), l.args[1], Event(l, now);
    var k, s1 := FindPerson(s, name), AddPerson(s, name);
    if k < |s.people| {
      AddPersonKeeps(s, name);
      MeStaysQuery(s, name);
      SetNickIs(s.people[k], to);
      RenameTraced(s, k, SetNick(s.people[k], to), past, e);
    } else {
      NewcomerDerived(s, name, to);
      DerivedTraced(s, RenameStep(s, name, to), past, e);
    }
  }

  lemma SetNickIs(n: Nick, to: string)
    ensures SetNick(n, to).nick == to && SetNick(n, to).query == n.query
  {}

  /** A nick nobody knew has no seat, whatever it is called next. */
  lemma NewcomerDerived(s: Net, name: string, to: string)
    requires Sound(s) && FindPerson(s, name) == |s.people|
    ensures Derived(s, RenameStep(s, name, to))
  {
    SameMembersDerived(s, RenameStep(s, name, to));
  }

  // ---------------------------------------------------------------------------- WHO

  /** handle_whoreply up to the channel: the nick is known, perhaps respelt. */
  function Introduced(s: Net, a: seq<string>): (r: Net)
    requires Sound(s) && |a| >= 9
    ensures Sound(r) && r.info == s.info
  {
    var k, s1 := FindPerson(s, a[6]), AddPerson(s, a[6]);
    WithPerson(s1, k, WhoNick(s1.people[k], a))
  }

  lemma IntroducedDerived(s: Net, a: seq<string>)
    requires Sound(s) && |a| >= 9
    ensures Derived(s, Introduced(s, a))
  {
    hide Sound, Derived, AddPerson, WithPerson;
    AddPersonKeeps(s, a[6]);
    MeStaysQuery(s, a[6]);
    WhoNickIs(AddPerson(s, a[6]).people[FindPerson(s, a[6])], a);
    hide WhoNick;
    TouchDerived(s, a[6], WhoNick(AddPerson(s, a[6]).people[FindPerson(s, a[6])], a));
  }

  lemma WhoNickIs(n: Nick, a: seq<string>)
    requires |a| >= 9
    ensures WhoNick(n, a).nick == a[6] && WhoNick(n, a).query == n.query
  {}

  /** Putting a stamp on the `j`-th member adds that member's mark and no other. */
  lemma StampedMarks(s: Net, i: nat, j: nat, flags: string, now: int, x: nat, mark: Mark)
    requires Sound(s) && i < |s.channels| && j < |s.channels[i].members| && x < |s.channels|
    requires var ms := s.channels[i].members;
             mark in Marks(WithMembers(s, i, ms[j := ms[j].(lastFlags := Some(flags), lastUpdate := now)]), x)
    ensures mark in Marks(s, x) || (x == i && mark == Mark(NickKey(s, i, j), now, Some(flags)))
  {
    var ms := s.channels[i].members;
    var r := WithMembers(s, i, ms[j := ms[j].(lastFlags := Some(flags), lastUpdate := now)]);
    var y :| 0 <= y < |r.channels[x].members| && r.channels[x].members[y].lastUpdate != 0 && mark == MarkAt(r, x, y);
    if x != i || y != j {
      assert r.channels[x].members[y] == s.channels[x].members[y];
      assert MarkAt(s, x, y) in Marks(s, x);
    }
  }

  lemma WhoTraced(s: Net, l: Line, now: int, past: seq<Moment>)
    requires Sound(s) && Complete(l) && CommandOf(l) == N352 && |l.args| >= 9 && Traced(s, past)
    ensures Traced(WhoReply(s, l.args, now), past + [Moment(s, Event(l, now))])
  {
    hide Sound, Marks, HasLineage, CommandNamed, Derived, Introduced;
    var a, m, s2 := l.args, Moment(s, Event(l, now)), Introduced(s, l.args);
    var r := WhoReply(s, a, now);
    WhoReplyFrom(s, a, now);
    IntroducedDerived(s, a);
    DerivedTraced(s, s2, past, m.event);
    var i := FindChan(s2, a[2]);
    if i < |s2.channels| && FindMember(s2, i, a[6]) < |s2.channels[i].members| {
      var j := FindMember(s2, i, a[6]);
      FoundNames(s2, i, j, a[2], a[6]);
      forall x, mark | 0 <= x < |r.channels| && mark in Marks(r, x)
        ensures HasLineage(past + [m], r.channels[x].data.name, mark)
      {
        StampedMarks(s2, i, j, a[7], now, x, mark);
        if mark !in Marks(s2, x) {
          LineageStarts(past, m, r.channels[x].data.name, mark);
        }
      }
    }
  }

  lemma WhoReplyFrom(s: Net, a: seq<string>, now: int)
    requires Sound(s) && |a| >= 9
    ensures var s2 := Introduced(s, a);
            var i := FindChan(s2, a[2]);
            WhoReply(s, a, now) ==
              if i == |s2.channels| || FindMember(s2, i, a[6]) == |s2.channels[i].members| then s2
              else
                var j, ms := FindMember(s2, i, a[6]), s2.channels[i].members;
                WithMembers(s2, i, ms[j := ms[j].(lastFlags := Some(a[7]), lastUpdate := now)])
  {}

  lemma FoundNames(s: Net, i: nat, j: nat, chan: string, nick: string)
    requires Sound(s) && i == FindChan(s, chan) < |s.channels| && j == FindMember(s, i, nick) < |s.channels[i].members|
    ensures Eq(s.info, chan, s.channels[i].data.name) && NickKey(s, i, j) == Folded(s.info, StripPrefix(s.info, nick))
  {
    assert Same(s.info.casemapping, ChanNames(s.channels)[i], chan);
    assert Same(s.info.casemapping, MemberNames(s.people, s.channels[i].members)[j], StripPrefix(s.info, nick));
  }

  // --------------------------------------------------------------------------- runs

  lemma StepTraced(s: Net, l: Line, now: int, past: seq<Moment>)
    requires Sound(s) && Accepts(s, l) && KeepsNicks(s, l) && Traced(s, past)
    ensures Traced(Step(s, l, now), past + [Moment(s, Event(l, now))])
  {
    hide Sound, Derived, Traced, CommandNamed, DataStep, OtherStep, MemberStep, KeepsNicks;
    var e, r := Event(l, now), Step(s, l, now);
    if !Complete(l) {
      DerivedRefl(s);
      DerivedTraced(s, s, past, e);
    } else if CommandOf(l) == N352 {
      WhoIsLong(l);
      assert r == WhoReply(s, l.args, now) by { WhoStepIs(s, l, now); }
      WhoTraced(s, l, now, past);
    } else if IsDataLine(CommandOf(l)) {
      DataDerived(s, l, now);
      DerivedTraced(s, r, past, e);
    } else if IsMemberLine(CommandOf(l)) {
      MemberDerived(s, l, now);
      DerivedTraced(s, r, past, e);
    } else {
      OtherTraced(s, l, now, past);
    }
  }

  lemma WhoIsLong(l: Line)
    requires Complete(l) && CommandOf(l) == N352
    ensures |l.args| >= 9
  {
    hide CommandNamed;
  }

  lemma WhoStepIs(s: Net, l: Line, now: int)
    requires Sound(s) && Accepts(s, l) && Complete(l) && CommandOf(l) == N352 && IsMemberLine(CommandOf(l))
    requires |l.args| >= 9
    ensures MemberStep(s, l, now) == WhoReply(s, l.args, now)
  {
    hide Sound, CommandNamed, WhoReply;
  }

  lemma OtherTraced(s: Net, l: Line, now: int, past: seq<Moment>)
    requires Sound(s) && Accepts(s, l) && KeepsNicks(s, l) && Traced(s, past) && Complete(l)
    requires !IsMemberLine(CommandOf(l)) && !IsDataLine(CommandOf(l))
    ensures Traced(OtherStep(s, l, now), past + [Moment(s, Event(l, now))])
  {
    hide Sound, Derived, Traced, CommandNamed, KeepsNicks;
    var e := Event(l, now);
    SoundPeople(s);
    if CommandOf(l) == NICK && l.origin.Some? {
      NickTraced(s, l, now, past);
    } else if CommandOf(l) == N001 {
      RenameTraced(s, 0, s.people[0].(nick := l.args[1]), past, e);
    } else if CommandOf(l) == NICK {
      DerivedRefl(s);
      DerivedTraced(s, s, past, e);
    } else {
      OtherDerived(s, l, now);
      DerivedTraced(s, OtherStep(s, l, now), past, e);
    }
  }

  predicate NicksKept(s: Net, es: seq<Event>)
    requires Sound(s) && Accepted(s, es)
    decreases |es|
  {
    es == [] || (KeepsNicks(s, es[0].line) && NicksKept(Step(s, es[0].line, es[0].now), es[1..]))
  }

  /** In every run, every member's last WHO reply was a 352 line that named that very member on that
      channel, and the member has been there ever since. */
  lemma {:induction false} RunTraced(s: Net, past: seq<Moment>, es: seq<Event>)
    requires Sound(s) && Accepted(s, es) && NicksKept(s, es) && Traced(s, past)
    ensures Traced(Run(s, es), past + Moments(s, es))
    decreases |es|
  {
    hide Sound, Accepts, Step, Traced, KeepsNicks;
    PastGrows(s, past, es);
    if es != [] {
      StepTraced(s, es[0].line, es[0].now, past);
      RunTraced(Step(s, es[0].line, es[0].now), past + [Moment(s, es[0])], es[1..]);
    }
  }

  lemma PastGrows(s: Net, past: seq<Moment>, es: seq<Event>)
    requires Sound(s) && Accepted(s, es)
    ensures es == [] ==> past + Moments(s, es) == past
    ensures es != [] ==>
              && past + Moments(s, es) == past + [Moment(s, es[0])] + Moments(Step(s, es[0].line, es[0].now), es[1..])
              && Event(es[0].line, es[0].now) == es[0]
  {
    hide Sound, Accepts, Step;
  }

  lemma InitiallyTraced(nick: string, username: string, hostname: string)
    ensures Traced(InitialNet(nick, username, hostname), [])
  {}
}
