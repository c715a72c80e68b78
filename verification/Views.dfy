/** What a snapshot and a replay determine of the state whatever memory held. Some fields are not in a
    snapshot (hop counts, creation times, mode_received, which lists are present, WHO data, away) or
    depend on when a line is handled (the time of a TOPIC). The ban, invite and except lists are in a
    snapshot, but what MODE does to them depends on their presence, which is not. `View` blanks all of
    these; what a stored line does to the rest depends on the rest alone. `Lists` follows the lists. */
module Views {
  import opened Base
  import opened Casemap
  import opened Info
  import opened Line
  import opened State
  import opened Handlers

  function ViewNick(n: Nick): (r: Nick) { n.(hops := 0) }

  function ViewData(d: ChanData): (r: ChanData) {
    d.(topicSetTime := 0, creationTime := 0, modeReceived := false, lists := map[], present := {})
  }

  function ViewMembers(ms: seq<Member>): (r: seq<Member>)
    ensures |r| == |ms| && forall j :: 0 <= j < |r| ==> r[j] == ms[j].(lastUpdate := 0, lastFlags := None)
  {
    seq(|ms|, j requires 0 <= j < |ms| => ms[j].(lastUpdate := 0, lastFlags := None))
  }

  function ViewChan(c: Chan): (r: Chan) { Chan(ViewData(c.data), ViewMembers(c.members)) }

  function ViewChans(cs: seq<Chan>): (r: seq<Chan>)
    ensures |r| == |cs| && forall i :: 0 <= i < |r| ==> r[i] == ViewChan(cs[i])
  {
    seq(|cs|, i requires 0 <= i < |cs| => ViewChan(cs[i]))
  }

  function ViewPeople(ns: seq<Nick>): (r: seq<Nick>)
    ensures |r| == |ns| && forall k :: 0 <= k < |r| ==> r[k] == ViewNick(ns[k])
  {
    seq(|ns|, k requires 0 <= k < |ns| => ViewNick(ns[k]))
  }

  function View(s: Net): (r: Net)
    ensures Sound(s) <==> Sound(r)
    ensures |r.channels| == |s.channels| && |r.people| == |s.people| && r.info == s.info
  {
    var r := Net(ViewChans(s.channels), ViewPeople(s.people), s.info, false);
    assert forall i, j :: 0 <= i < |s.channels| && 0 <= j < |s.channels[i].members| ==>
        r.channels[i].members[j].who == s.channels[i].members[j].who;
    assert Sound(r) ==> Sound(s) by {
      if Sound(r) {
        forall i | 0 <= i < |s.channels|
          ensures SoundMembers(s.channels[i].members, |s.people|)
        {
          assert SoundMembers(r.channels[i].members, |r.people|);
          var a, b := s.channels[i].members, r.channels[i].members;
          assert forall j :: 0 <= j < |a| ==> a[j].who == b[j].who;
        }
      }
    }
    assert Sound(s) ==> Sound(r) by {
      if Sound(s) {
        forall i | 0 <= i < |s.channels|
          ensures SoundMembers(r.channels[i].members, |r.people|)
        {
          assert SoundMembers(s.channels[i].members, |s.people|);
        }
      }
    }
    r
  }

  /** Two states that differ only in what `View` blanks. */
  predicate Alike(a: Net, b: Net) { View(a) == View(b) }

  lemma AlikeParts(a: Net, b: Net)
    requires Alike(a, b)
    ensures |a.channels| == |b.channels| && |a.people| == |b.people| && a.info == b.info
    ensures forall k :: 0 <= k < |a.people| ==> ViewNick(a.people[k]) == ViewNick(b.people[k])
    ensures forall i :: 0 <= i < |a.channels| ==> ViewChan(a.channels[i]) == ViewChan(b.channels[i])
    ensures Sound(a) <==> Sound(b)
  {
    var x, y := View(a), View(b);
    assert forall k :: 0 <= k < |a.people| ==> x.people[k] == y.people[k];
    assert forall i :: 0 <= i < |a.channels| ==> x.channels[i] == y.channels[i];
  }

  lemma AlikeBy(a: Net, b: Net)
    requires |a.channels| == |b.channels| && |a.people| == |b.people| && a.info == b.info
    requires forall k :: 0 <= k < |a.people| ==> ViewNick(a.people[k]) == ViewNick(b.people[k])
    requires forall i :: 0 <= i < |a.channels| ==> ViewChan(a.channels[i]) == ViewChan(b.channels[i])
    ensures Alike(a, b)
  {
    assert ViewPeople(a.people) == ViewPeople(b.people);
    assert ViewChans(a.channels) == ViewChans(b.channels);
  }

  predicate AlikeMembers(a: seq<Member>, b: seq<Member>) {
    |a| == |b| && forall j :: 0 <= j < |a| ==> a[j].who == b[j].who && a[j].modes == b[j].modes
  }

  lemma AlikeChan(a: Chan, b: Chan)
    ensures ViewChan(a) == ViewChan(b) <==> ViewData(a.data) == ViewData(b.data) && AlikeMembers(a.members, b.members)
  {
    var x, y := ViewMembers(a.members), ViewMembers(b.members);
    if AlikeMembers(a.members, b.members) {
      assert x == y;
    }
    if x == y {
      assert forall j :: 0 <= j < |a.members| ==> x[j] == y[j];
    }
  }

  // ----------------------------------------------------------------------- lookups

  lemma AlikeFinds(a: Net, b: Net, name: string)
    requires Alike(a, b)
    ensures FindChan(a, name) == FindChan(b, name) && FindPerson(a, name) == FindPerson(b, name)
    ensures SetterOf(a, name) == SetterOf(b, name)
  {
    AlikeParts(a, b);
    assert PeopleNames(a.people) == PeopleNames(b.people);
    forall i | 0 <= i < |a.channels|
      ensures a.channels[i].data.name == b.channels[i].data.name
    {
      assert ViewChan(a.channels[i]).data.name == ViewChan(b.channels[i]).data.name;
    }
    assert ChanNames(a.channels) == ChanNames(b.channels);
  }

  lemma AlikeFindsMember(a: Net, b: Net, i: nat, name: string)
    requires Alike(a, b) && Sound(a) && Sound(b) && i < |a.channels|
    ensures i < |b.channels| && AlikeMembers(a.channels[i].members, b.channels[i].members)
    ensures FindMember(a, i, name) == FindMember(b, i, name)
  {
    AlikeParts(a, b);
    AlikeChan(a.channels[i], b.channels[i]);
    assert MemberNames(a.people, a.channels[i].members) == MemberNames(b.people, b.channels[i].members);
  }

  lemma AlikeOnChan(a: Chan, b: Chan, k: nat)
    requires ViewChan(a) == ViewChan(b)
    ensures OnChan(a, k) <==> OnChan(b, k)
  {
    AlikeChan(a, b);
  }

  lemma AlikeOnAny(a: Net, b: Net, k: nat)
    requires Alike(a, b)
    ensures OnAny(a, k) <==> OnAny(b, k)
  {
    AlikeParts(a, b);
    forall i | 0 <= i < |a.channels|
      ensures OnChan(a.channels[i], k) <==> OnChan(b.channels[i], k)
    {
      AlikeOnChan(a.channels[i], b.channels[i], k);
    }
  }

  // -------------------------------------------------------------------- operations

  lemma AlikeWithPerson(a: Net, b: Net, k: nat, n: Nick, m: Nick)
    requires Alike(a, b) && k < |a.people| && ViewNick(n) == ViewNick(m)
    ensures k < |b.people| && Alike(WithPerson(a, k, n), WithPerson(b, k, m))
  {
    AlikeParts(a, b);
    AlikeBy(WithPerson(a, k, n), WithPerson(b, k, m));
  }

  lemma AlikeWithChan(a: Net, b: Net, i: nat, d: ChanData, e: ChanData)
    requires Alike(a, b) && i < |a.channels| && ViewData(d) == ViewData(e)
    ensures i < |b.channels| && Alike(WithChan(a, i, d), WithChan(b, i, e))
  {
    AlikeParts(a, b);
    AlikeChan(a.channels[i], b.channels[i]);
    AlikeChan(a.channels[i].(data := d), b.channels[i].(data := e));
    AlikeBy(WithChan(a, i, d), WithChan(b, i, e));
  }

  lemma AlikeWithMembers(a: Net, b: Net, i: nat, x: seq<Member>, y: seq<Member>)
    requires Alike(a, b) && i < |a.channels| && AlikeMembers(x, y)
    ensures i < |b.channels| && Alike(WithMembers(a, i, x), WithMembers(b, i, y))
  {
    AlikeParts(a, b);
    AlikeChan(a.channels[i], b.channels[i]);
    AlikeChan(a.channels[i].(members := x), b.channels[i].(members := y));
    AlikeBy(WithMembers(a, i, x), WithMembers(b, i, y));
  }

  lemma AlikeAddChan(a: Net, b: Net, name: string)
    requires Alike(a, b)
    ensures Alike(AddChan(a, name), AddChan(b, name))
  {
    AlikeParts(a, b);
    AlikeFinds(a, b, name);
    AlikeBy(AddChan(a, name), AddChan(b, name));
  }

  lemma AlikeAddPerson(a: Net, b: Net, name: string)
    requires Alike(a, b)
    ensures Alike(AddPerson(a, name), AddPerson(b, name)) && FindPerson(a, name) == FindPerson(b, name)
    ensures var k := FindPerson(a, name);
            ViewNick(AddPerson(a, name).people[k]) == ViewNick(AddPerson(b, name).people[k])
  {
    AlikeParts(a, b);
    AlikeFinds(a, b, name);
    AlikeBy(AddPerson(a, name), AddPerson(b, name));
  }

  lemma AlikeAddMember(a: Net, b: Net, i: nat, name: string)
    requires Alike(a, b) && Sound(a) && Sound(b) && i < |a.channels| && OnePrefix(a.info, name)
    ensures i < |b.channels| && OnePrefix(b.info, name) && Alike(AddMember(a, i, name), AddMember(b, i, name))
    ensures FindMember(a, i, StripPrefix(a.info, name)) == FindMember(b, i, StripPrefix(b.info, name))
  {
    hide Alike, View;
    AlikeParts(a, b);
    var realname := StripPrefix(a.info, name);
    AlikeFindsMember(a, b, i, realname);
    if FindMember(a, i, realname) == |a.channels[i].members| {
      AlikeAddPerson(a, b, realname);
      var m := Member(FindPerson(a, realname), PrefixMode(a.info, name), 0, None);
      AlikeWithMembers(AddPerson(a, realname), AddPerson(b, realname), i,
                       a.channels[i].members + [m], b.channels[i].members + [m]);
    }
  }

  lemma AlikeShift(a: Net, b: Net, k: nat)
    requires Alike(a, b) && Sound(a) && Sound(b) && 1 <= k < |a.people| && !OnAny(a, k) && !OnAny(b, k)
    ensures k < |b.people| && Alike(DropPerson(a, k), DropPerson(b, k))
  {
    AlikeParts(a, b);
    var x, y := DropPerson(a, k), DropPerson(b, k);
    forall i | 0 <= i < |x.channels|
      ensures ViewChan(x.channels[i]) == ViewChan(y.channels[i])
    {
      AlikeChan(a.channels[i], b.channels[i]);
      AlikeChan(x.channels[i], y.channels[i]);
    }
    AlikeBy(x, y);
  }

  lemma AlikeDropMember(a: Net, b: Net, i: nat, j: nat)
    requires Alike(a, b) && Sound(a) && Sound(b) && i < |a.channels| && j < |a.channels[i].members|
    ensures i < |b.channels| && j < |b.channels[i].members| && Alike(DropMember(a, i, j), DropMember(b, i, j))
  {
    hide Alike, View;
    AlikeParts(a, b);
    AlikeChan(a.channels[i], b.channels[i]);
    var k := a.channels[i].members[j].who;
    AlikeWithMembers(a, b, i, Without(a.channels[i].members, j), Without(b.channels[i].members, j));
    var x, y := RemoveMember(a, i, j), RemoveMember(b, i, j);
    AlikeOnAny(x, y, k);
    assert ViewNick(a.people[k]).query == ViewNick(b.people[k]).query;
    if !OnAny(x, k) && !x.people[k].query {
      AlikeShift(x, y, k);
    }
  }

  lemma {:induction false} AlikeClear(a: Net, b: Net, i: nat)
    requires Alike(a, b) && Sound(a) && Sound(b) && i < |a.channels|
    ensures i < |b.channels| && Alike(ClearMembers(a, i), ClearMembers(b, i))
    decreases |a.channels[i].members|
  {
    hide Alike, View, DropMember;
    AlikeParts(a, b);
    AlikeChan(a.channels[i], b.channels[i]);
    if a.channels[i].members != [] {
      AlikeDropMember(a, b, i, 0);
      AlikeClear(DropMember(a, i, 0), DropMember(b, i, 0), i);
    }
  }

  lemma AlikeDropChan(a: Net, b: Net, i: nat)
    requires Alike(a, b) && Sound(a) && Sound(b) && i < |a.channels|
    ensures i < |b.channels| && Alike(DropChan(a, i), DropChan(b, i))
  {
    hide Alike, View, ClearMembers;
    AlikeParts(a, b);
    AlikeClear(a, b, i);
    AlikeParts(ClearMembers(a, i), ClearMembers(b, i));
    AlikeBy(DropChan(a, i), DropChan(b, i));
  }

  lemma AlikeTail(a: seq<Member>, b: seq<Member>)
    requires AlikeMembers(a, b) && a != []
    ensures b != [] && a[0].who == b[0].who && AlikeMembers(a[..1], b[..1]) && AlikeMembers(a[1..], b[1..])
  {}

  lemma AlikeJoined(a: seq<Member>, b: seq<Member>, x: seq<Member>, y: seq<Member>)
    requires AlikeMembers(a, b) && AlikeMembers(x, y)
    ensures AlikeMembers(a + x, b + y)
  {}

  lemma {:induction false} AlikeBut(a: seq<Member>, b: seq<Member>, k: nat)
    requires AlikeMembers(a, b)
    ensures AlikeMembers(MembersBut(a, k), MembersBut(b, k))
  {
    if a != [] {
      AlikeTail(a, b);
      hide AlikeMembers;
      AlikeBut(a[1..], b[1..], k);
      AlikeJoined(a[..1], b[..1], MembersBut(a[1..], k), MembersBut(b[1..], k));
      assert a[..1] == [a[0]] && b[..1] == [b[0]];
    } else {
      assert b == [];
    }
  }

  lemma AlikeLeaveAll(a: Net, b: Net, k: nat)
    requires Alike(a, b) && Sound(a) && Sound(b)
    ensures Alike(LeaveAll(a, k), LeaveAll(b, k))
  {
    AlikeParts(a, b);
    var x, y := LeaveAll(a, k), LeaveAll(b, k);
    forall i | 0 <= i < |x.channels|
      ensures ViewChan(x.channels[i]) == ViewChan(y.channels[i])
    {
      AlikeChan(a.channels[i], b.channels[i]);
      AlikeBut(a.channels[i].members, b.channels[i].members, k);
      AlikeChan(x.channels[i], y.channels[i]);
    }
    AlikeBy(x, y);
  }

  lemma AlikeQuit(a: Net, b: Net, nick: string)
    requires Alike(a, b) && Sound(a) && Sound(b)
    ensures Alike(Quit(a, nick), Quit(b, nick))
  {
    hide Alike, View, LeaveAll, DropPerson;
    AlikeParts(a, b);
    AlikeFinds(a, b, nick);
    var k := FindPerson(a, nick);
    if k < |a.people| {
      AlikeLeaveAll(a, b, k);
      if k > 0 { AlikeShift(LeaveAll(a, k), LeaveAll(b, k), k); }
    }
  }

  // ------------------------------------------------------------------------- lines

  lemma AlikeJoinOne(a: Net, b: Net, name: string, origin: string)
    requires Alike(a, b) && Sound(a) && Sound(b) && '!' in origin && OnePrefix(a.info, NickPart(origin))
    ensures OnePrefix(b.info, NickPart(origin)) && Alike(JoinOne(a, name, origin), JoinOne(b, name, origin))
  {
    hide Alike, View, Sound, AddMember, SetHostmask, OnePrefix;
    AlikeParts(a, b);
    AlikeFinds(a, b, name);
    AlikeAddChan(a, b, name);
    var a1, b1, i, nick := AddChan(a, name), AddChan(b, name), FindChan(a, name), NickPart(origin);
    AlikeAddMember(a1, b1, i, nick);
    var a2, b2, j := AddMember(a1, i, nick), AddMember(b1, i, nick), FindMember(a1, i, StripPrefix(a.info, nick));
    AlikeParts(a2, b2);
    AlikeChan(a2.channels[i], b2.channels[i]);
    AddMemberHas(a1, i, nick);
    var k := a2.channels[i].members[j].who;
    SetHostmaskAlike(a2.people[k], b2.people[k], origin);
    AlikeWithPerson(a2, b2, k, SetHostmask(a2.people[k], origin), SetHostmask(b2.people[k], origin));
  }

  lemma AddMemberHas(s: Net, i: nat, name: string)
    requires Sound(s) && i < |s.channels| && OnePrefix(s.info, name)
    ensures var r, j := AddMember(s, i, name), FindMember(s, i, StripPrefix(s.info, name));
            j < |r.channels[i].members| && r.channels[i].members[j].who < |r.people|
  {}

  lemma SetHostmaskAlike(n: Nick, m: Nick, mask: string)
    requires ViewNick(n) == ViewNick(m) && '!' in mask
    ensures ViewNick(SetHostmask(n, mask)) == ViewNick(SetHostmask(m, mask))
  {}

  lemma {:induction false} AlikeJoinAll(a: Net, b: Net, names: seq<string>, origin: string)
    requires Alike(a, b) && Sound(a) && Sound(b) && '!' in origin && OnePrefix(a.info, NickPart(origin))
    ensures OnePrefix(b.info, NickPart(origin)) && Alike(JoinAll(a, names, origin), JoinAll(b, names, origin))
    decreases |names|
  {
    hide Alike, View, Sound, JoinOne, OnePrefix;
    AlikeParts(a, b);
    if names != [] {
      AlikeJoinOne(a, b, names[0], origin);
      AlikeJoinAll(JoinOne(a, names[0], origin), JoinOne(b, names[0], origin), names[1..], origin);
    }
  }

  lemma AlikeIsMe(a: Net, b: Net, nick: string)
    requires Alike(a, b) && Sound(a)
    ensures |b.people| >= 1 && (IsMe(a, nick) <==> IsMe(b, nick)) && a.people[0].nick == b.people[0].nick
  {
    AlikeParts(a, b);
    assert ViewNick(a.people[0]).nick == ViewNick(b.people[0]).nick;
  }

  lemma AlikePartOne(a: Net, b: Net, name: string, nick: string)
    requires Alike(a, b) && Sound(a) && Sound(b)
    ensures Alike(PartOne(a, name, nick), PartOne(b, name, nick))
    ensures Alike(KickOne(a, name, nick), KickOne(b, name, nick))
  {
    hide Alike, View, DropMember, DropChan, IsMe, FindMember, FindChan;
    AlikeParts(a, b);
    AlikeFinds(a, b, name);
    var i := FindChan(a, name);
    if i < |a.channels| {
      AlikeFindsMember(a, b, i, nick);
      var j := FindMember(a, i, nick);
      AlikeIsMe(a, b, nick);
      AlikeDropChan(a, b, i);
      if j < |a.channels[i].members| {
        AlikeDropMember(a, b, i, j);
        AlikeIsMe(DropMember(a, i, j), DropMember(b, i, j), nick);
        AlikeDropChan(DropMember(a, i, j), DropMember(b, i, j), i);
      }
    }
  }

  lemma {:induction false} AlikePartAll(a: Net, b: Net, names: seq<string>, nick: string)
    requires Alike(a, b) && Sound(a) && Sound(b)
    ensures Alike(PartAll(a, names, nick), PartAll(b, names, nick))
    decreases |names|
  {
    hide Alike, View, PartOne, KickOne, Sound;
    if names != [] {
      AlikePartOne(a, b, names[0], nick);
      AlikePartAll(PartOne(a, names[0], nick), PartOne(b, names[0], nick), names[1..], nick);
    }
  }

  lemma {:induction false} AlikeKickAll(a: Net, b: Net, names: seq<string>, nicks: seq<string>)
    requires Alike(a, b) && Sound(a) && Sound(b)
    ensures Alike(KickAll(a, names, nicks), KickAll(b, names, nicks))
    decreases |names|
  {
    hide Alike, View, PartOne, KickOne, Sound;
    if names != [] && nicks != [] {
      AlikePartOne(a, b, names[0], nicks[0]);
      AlikeKickAll(KickOne(a, names[0], nicks[0]), KickOne(b, names[0], nicks[0]), names[1..], nicks[1..]);
    }
  }

  lemma {:induction false} AlikeAddNames(a: Net, b: Net, i: nat, names: seq<string>)
    requires Alike(a, b) && Sound(a) && Sound(b) && i < |a.channels| && AllOnePrefix(a.info, names)
    ensures i < |b.channels| && AllOnePrefix(b.info, names) && Alike(AddNames(a, i, names), AddNames(b, i, names))
    decreases |names|
  {
    hide Alike, View, AddMember, Sound, OnePrefix;
    AlikeParts(a, b);
    if names != [] {
      AlikeAddMember(a, b, i, names[0]);
      var skip := names[0] == "";
      AlikeAddNames(if skip then a else AddMember(a, i, names[0]), if skip then b else AddMember(b, i, names[0]), i,
                    names[1..]);
    }
  }

  lemma AlikeOpenNames(a: Net, b: Net, i: nat, mode: string)
    requires Alike(a, b) && Sound(a) && Sound(b) && i < |a.channels|
    ensures i < |b.channels| && Alike(OpenNames(a, i, mode), OpenNames(b, i, mode))
  {
    hide Alike, View, ClearMembers, WithChan, Sound;
    AlikeParts(a, b);
    AlikeChan(a.channels[i], b.channels[i]);
    var m := if mode == "" then '\0' else mode[0];
    var a1, b1 := WithChan(a, i, a.channels[i].data.(mode := m)), WithChan(b, i, b.channels[i].data.(mode := m));
    AlikeWithChan(a, b, i, a.channels[i].data.(mode := m), b.channels[i].data.(mode := m));
    AlikeParts(a1, b1);
    WithChanHas(a, i, a.channels[i].data.(mode := m));
    AlikeChan(a1.channels[i], b1.channels[i]);
    assert ViewData(a1.channels[i].data).namreplyStarted == ViewData(b1.channels[i].data).namreplyStarted;
    AlikeClear(a1, b1, i);
    var a2, b2 := ClearMembers(a1, i), ClearMembers(b1, i);
    AlikeParts(a2, b2);
    AlikeChan(a2.channels[i], b2.channels[i]);
    AlikeWithChan(a2, b2, i, a2.channels[i].data.(namreplyStarted := true),
                  b2.channels[i].data.(namreplyStarted := true));
  }

  lemma WithChanHas(s: Net, i: nat, d: ChanData)
    requires i < |s.channels|
    ensures |WithChan(s, i, d).channels| == |s.channels|
  {}

  lemma AlikeNamReply(a: Net, b: Net, i: nat, mode: string, names: seq<string>)
    requires Alike(a, b) && Sound(a) && Sound(b) && i < |a.channels| && AllOnePrefix(a.info, names)
    ensures i < |b.channels| && AllOnePrefix(b.info, names)
    ensures Alike(NamReply(a, i, mode, names), NamReply(b, i, mode, names))
  {
    hide Alike, View, OpenNames, AddNames, Sound, OnePrefix;
    AlikeParts(a, b);
    AlikeOpenNames(a, b, i, mode);
    AlikeAddNames(OpenNames(a, i, mode), OpenNames(b, i, mode), i, names);
  }

  lemma AlikeRename(a: Net, b: Net, name: string, to: string)
    requires Alike(a, b) && Sound(a) && Sound(b)
    ensures Alike(RenameStep(a, name, to), RenameStep(b, name, to)) && Alike(QueryStep(a, name), QueryStep(b, name))
  {
    hide Alike, View, Sound;
    AlikeAddPerson(a, b, name);
    var k, x, y := FindPerson(a, name), AddPerson(a, name), AddPerson(b, name);
    AlikeParts(x, y);
    AlikeWithPerson(x, y, k, SetNick(x.people[k], to), SetNick(y.people[k], to));
    AlikeWithPerson(x, y, k, x.people[k].(query := true), y.people[k].(query := true));
  }

  // -------------------------------------------------------------------------- MODE

  predicate AlikeChange(x: Change, y: Change) { x.taken == y.taken && Alike(x.state, y.state) }

  lemma AlikeChangeList(a: Net, b: Net, setter: Option<string>, i: nat, on: bool, m: char, arg: Option<string>,
                        n1: int, n2: int)
    requires Alike(a, b) && i < |a.channels|
    ensures i < |b.channels|
    ensures AlikeChange(ChangeList(a, setter, i, on, m, arg, n1), ChangeList(b, setter, i, on, m, arg, n2))
  {
    hide Alike, View, WithChan;
    AlikeParts(a, b);
    AlikeChan(a.channels[i], b.channels[i]);
    var d, e := a.channels[i].data, b.channels[i].data;
    AlikeWithChan(a, a, i, d, d) by { AlikeRefl(a); }
    WithSameChan(a, i);
    WithSameChan(b, i);
    forall x: map<char, seq<ListEntry>>, y: map<char, seq<ListEntry>>
      ensures Alike(WithChan(a, i, d.(lists := x)), WithChan(b, i, e.(lists := y)))
      ensures Alike(a, WithChan(b, i, e.(lists := y))) && Alike(WithChan(a, i, d.(lists := x)), b)
    {
      AlikeWithChan(a, b, i, d.(lists := x), e.(lists := y));
      AlikeWithChan(a, b, i, d, e.(lists := y));
      AlikeWithChan(a, b, i, d.(lists := x), e);
    }
  }

  lemma AlikeRefl(a: Net)
    ensures Alike(a, a)
  {}

  lemma WithSameChan(s: Net, i: nat)
    requires i < |s.channels|
    ensures WithChan(s, i, s.channels[i].data) == s
  {
    assert WithChan(s, i, s.channels[i].data).channels == s.channels;
  }

  lemma AlikeChangeOption(a: Net, b: Net, i: nat, on: bool, m: char, arg: Option<string>)
    requires Alike(a, b) && i < |a.channels|
    ensures i < |b.channels| && AlikeChange(ChangeOption(a, i, on, m, arg), ChangeOption(b, i, on, m, arg))
  {
    hide Alike, View, WithChan;
    AlikeParts(a, b);
    AlikeChan(a.channels[i], b.channels[i]);
    var d, e := a.channels[i].data, b.channels[i].data;
    assert ViewData(d).options == ViewData(e).options;
    AlikeWithChan(a, b, i, d.(options := d.options - {m}), e.(options := e.options - {m}));
    if arg.Some? {
      AlikeWithChan(a, b, i, d.(options := d.options[m := arg.value]), e.(options := e.options[m := arg.value]));
    }
  }

  lemma AlikeChangeMember(a: Net, b: Net, i: nat, on: bool, m: char, arg: Option<string>)
    requires Alike(a, b) && Sound(a) && Sound(b) && i < |a.channels|
    ensures i < |b.channels| && AlikeChange(ChangeMemberMode(a, i, on, m, arg), ChangeMemberMode(b, i, on, m, arg))
  {
    hide Alike, View, WithMembers, Sound;
    AlikeParts(a, b);
    if arg.Some? {
      AlikeFindsMember(a, b, i, arg.value);
      var j, x, y := FindMember(a, i, arg.value), a.channels[i].members, b.channels[i].members;
      if j < |x| {
        AlikeWithMembers(a, b, i, x[j := x[j].(modes := ToggleMode(x[j].modes, on, m))],
                         y[j := y[j].(modes := ToggleMode(y[j].modes, on, m))]);
      }
    }
  }

  lemma AlikeChangeMode(a: Net, b: Net, setter: Option<string>, i: nat, on: bool, m: char, arg: Option<string>,
                        n1: int, n2: int)
    requires Alike(a, b) && Sound(a) && Sound(b) && i < |a.channels| && ChanmodesOk(a.info)
    ensures i < |b.channels| && ChanmodesOk(b.info)
    ensures AlikeChange(ChangeMode(a, setter, i, on, m, arg, n1), ChangeMode(b, setter, i, on, m, arg, n2))
  {
    hide Alike, View, WithChan, Sound, ChangeList, ChangeOption, ChangeMemberMode, ChanmodesOk, IsPrefixMode;
    AlikeParts(a, b);
    AlikeChangeList(a, b, setter, i, on, m, arg, n1, n2);
    AlikeChangeOption(a, b, i, on, m, arg);
    AlikeChangeMember(a, b, i, on, m, arg);
    AlikeChan(a.channels[i], b.channels[i]);
    var d, e := a.channels[i].data, b.channels[i].data;
    assert ViewData(d).modes == ViewData(e).modes;
    AlikeWithChan(a, b, i, d.(modes := ToggleMode(d.modes, on, m)), e.(modes := ToggleMode(e.modes, on, m)));
  }

  lemma {:induction false} AlikeModeLoop(a: Net, b: Net, setter: Option<string>, i: nat, modes: string,
                                         args: seq<string>,
                                         arg: nat, on: bool, n1: int, n2: int)
    requires Alike(a, b) && Sound(a) && Sound(b) && i < |a.channels| && ChanmodesOk(a.info)
    ensures i < |b.channels| && ChanmodesOk(b.info)
    ensures Alike(ModeLoop(a, setter, i, modes, args, arg, on, n1), ModeLoop(b, setter, i, modes, args, arg, on, n2))
    decreases |modes|
  {
    hide Alike, View, Sound, ChangeMode, ChanmodesOk;
    AlikeParts(a, b);
    if modes == "" {
    } else if modes[0] == '+' {
      AlikeModeLoop(a, b, setter, i, modes[1..], args, arg, true, n1, n2);
    } else if modes[0] == '-' {
      AlikeModeLoop(a, b, setter, i, modes[1..], args, arg, false, n1, n2);
    } else {
      AlikeChangeMode(a, b, setter, i, on, modes[0], Nth(args, arg), n1, n2);
      var x := ChangeMode(a, setter, i, on, modes[0], Nth(args, arg), n1);
      var y := ChangeMode(b, setter, i, on, modes[0], Nth(args, arg), n2);
      if x.taken.Some? {
        AlikeModeLoop(x.state, y.state, setter, i, modes[1..], args,
                      if arg < |args| then arg + x.taken.value else arg, on, n1, n2);
      }
    }
  }

  lemma AlikeModeLine(a: Net, b: Net, l: Line, n1: int, n2: int)
    requires Alike(a, b) && Sound(a) && Sound(b) && Accepts(a, l) && Accepts(b, l) && CommandOf(l) == MODE
    requires Complete(l)
    ensures Alike(ModeLine(a, l, n1), ModeLine(b, l, n2))
  {
    hide Alike, View, Sound, ModeLoop, ChanmodesOk;
    AlikeParts(a, b);
    AlikeFinds(a, b, l.args[1]);
    if IsChannelName(a.info, l.args[1]) {
      var i := FindChan(a, l.args[1]);
      if i < |a.channels| {
        AlikeFinds(a, b, NickPart(l.origin.value));
        AlikeModeLoop(a, b, SetterOf(a, NickPart(l.origin.value)), i, l.args[2], l.args, 3, true, n1, n2);
      }
    } else {
      AlikeAddPerson(a, b, l.args[1]);
      var k, x, y := FindPerson(a, l.args[1]), AddPerson(a, l.args[1]), AddPerson(b, l.args[1]);
      assert ViewNick(x.people[k]).modes == ViewNick(y.people[k]).modes;
      var modes := UserModes(x.people[k].modes, l.args[2], true);
      AlikeWithPerson(x, y, k, x.people[k].(modes := modes), y.people[k].(modes := modes));
    }
  }

  // -------------------------------------------------------------------------- steps

  /** The commands the linestack stores, as far as the state knows them. */
  predicate IsStored(c: Command) {
    c in {NICK, JOIN, QUIT, PART, PRIVMSG, KICK, MODE, TOPIC, N353, N366, N331, N333, N332, N324, N329, OTHER}
  }

  lemma AlikeTopicLine(d: ChanData, e: ChanData, l: Line, n1: int, n2: int)
    requires ViewData(d) == ViewData(e) && Complete(l) && DataArgsOk(l)
    requires CommandOf(l) == TOPIC || CommandOf(l) == N331 || CommandOf(l) == N332 || CommandOf(l) == N333
    ensures ViewData(DataChange(d, l, n1)) == ViewData(DataChange(e, l, n2))
  {
    hide CommandNamed, StringToModes, StrtolAuto, Atoi, ListReply, ListEnd;
  }

  lemma AlikeModeIsLine(d: ChanData, e: ChanData, l: Line, n1: int, n2: int)
    requires ViewData(d) == ViewData(e) && Complete(l) && DataArgsOk(l)
    requires CommandOf(l) == N324 || CommandOf(l) == N329 || CommandOf(l) == N366
    ensures ViewData(DataChange(d, l, n1)) == ViewData(DataChange(e, l, n2))
  {
    hide CommandNamed, StringToModes, StrtolAuto, Atoi, ListReply, ListEnd;
  }

  lemma AlikeData(d: ChanData, e: ChanData, l: Line, n1: int, n2: int)
    requires ViewData(d) == ViewData(e) && IsDataLine(CommandOf(l)) && Complete(l) && DataArgsOk(l)
    requires IsStored(CommandOf(l))
    ensures ViewData(DataChange(d, l, n1)) == ViewData(DataChange(e, l, n2))
  {
    hide DataChange, ViewData, CommandNamed;
    var c := CommandOf(l);
    if c == TOPIC || c == N331 || c == N332 || c == N333 {
      AlikeTopicLine(d, e, l, n1, n2);
    } else {
      AlikeModeIsLine(d, e, l, n1, n2);
    }
  }

  lemma AlikeDataStep(a: Net, b: Net, l: Line, n1: int, n2: int)
    requires Alike(a, b) && Sound(a) && Sound(b) && Accepts(a, l) && Accepts(b, l)
    requires IsDataLine(CommandOf(l)) && Complete(l) && IsStored(CommandOf(l))
    ensures Alike(DataStep(a, l, n1), DataStep(b, l, n2))
  {
    hide Alike, View, Sound, DataChange, WithChan;
    AlikeParts(a, b);
    if CommandOf(l) != TOPIC || l.origin.Some? {
      AlikeFinds(a, b, DataTarget(l));
      var i := FindChan(a, DataTarget(l));
      if i < |a.channels| {
        AlikeChan(a.channels[i], b.channels[i]);
        AlikeData(a.channels[i].data, b.channels[i].data, l, n1, n2);
        AlikeWithChan(a, b, i, DataChange(a.channels[i].data, l, n1), DataChange(b.channels[i].data, l, n2));
      }
    }
  }

  lemma AlikeMemberStep(a: Net, b: Net, l: Line, n1: int, n2: int)
    requires Alike(a, b) && Sound(a) && Sound(b) && Accepts(a, l) && Accepts(b, l)
    requires IsMemberLine(CommandOf(l)) && Complete(l) && IsStored(CommandOf(l))
    ensures Alike(MemberStep(a, l, n1), MemberStep(b, l, n2))
  {
    hide Alike, View, Sound, JoinAll, PartAll, KickAll, Quit, NamReply, OnePrefix;
    AlikeParts(a, b);
    var args := l.args;
    match CommandOf(l) {
      case JOIN => if l.origin.Some? { AlikeJoinAll(a, b, StrSplit(args[1], ','), l.origin.value); }
      case PART => if l.origin.Some? { AlikePartAll(a, b, StrSplit(args[1], ','), NickPart(l.origin.value)); }
      case KICK => if l.origin.Some? { AlikeKickAll(a, b, StrSplit(args[1], ','), StrSplit(args[2], ',')); }
      case QUIT => if l.origin.Some? { AlikeQuit(a, b, NickPart(l.origin.value)); }
      case N353 =>
        AlikeFinds(a, b, args[3]);
        if KnownChan(a, args[3]) { AlikeNamReply(a, b, FindChan(a, args[3]), args[2], StrSplit(args[4], ' ')); }
    }
  }

  lemma AlikeOtherStep(a: Net, b: Net, l: Line, n1: int, n2: int)
    requires Alike(a, b) && Sound(a) && Sound(b) && Accepts(a, l) && Accepts(b, l)
    requires !IsMemberLine(CommandOf(l)) && !IsDataLine(CommandOf(l)) && Complete(l) && IsStored(CommandOf(l))
    ensures Alike(OtherStep(a, l, n1), OtherStep(b, l, n2))
  {
    hide Alike, View, Sound, RenameStep, QueryStep, ModeLine;
    AlikeParts(a, b);
    match CommandOf(l) {
      case NICK => if l.origin.Some? { AlikeRename(a, b, NickPart(l.origin.value), l.args[1]); }
      case PRIVMSG =>
        if l.origin.Some? {
          AlikeIsMe(a, b, "") by { SoundMe(a); }
          AlikeRename(a, b, NickPart(l.origin.value), "");
        }
      case MODE => AlikeModeLine(a, b, l, n1, n2);
      case OTHER =>
    }
  }

  lemma SoundMe(s: Net)
    requires Sound(s)
    ensures |s.people| >= 1
  {}

  lemma AlikeAccepts(a: Net, b: Net, l: Line)
    requires Alike(a, b) && Sound(a) && Sound(b) && IsStored(CommandOf(l)) && Accepts(a, l)
    ensures Accepts(b, l)
  {
    hide Alike, View, FindChan, FindPerson, ChanmodesOk, OnePrefix, HasPrefix;
    AlikeParts(a, b);
    AlikeIsMe(a, b, "");
    if Complete(l) {
      forall k | 0 <= k < |l.args|
        ensures FindChan(a, l.args[k]) == FindChan(b, l.args[k]) && FindPerson(a, l.args[k]) == FindPerson(b, l.args[k])
      {
        AlikeFinds(a, b, l.args[k]);
      }
      if l.origin.Some? { AlikeFinds(a, b, NickPart(l.origin.value)); }
    }
  }

  /** What a stored line does to the view depends on the view alone, and not on the time. */
  lemma StepAlike(a: Net, b: Net, l: Line, n1: int, n2: int)
    requires Alike(a, b) && Sound(a) && Sound(b) && IsStored(CommandOf(l)) && Accepts(a, l)
    ensures Accepts(b, l) && Alike(Step(a, l, n1), Step(b, l, n2))
  {
    hide Alike, View, Sound, Accepts, DataStep, MemberStep, OtherStep;
    AlikeAccepts(a, b, l);
    if Complete(l) {
      if IsDataLine(CommandOf(l)) { AlikeDataStep(a, b, l, n1, n2); }
      else if IsMemberLine(CommandOf(l)) { AlikeMemberStep(a, b, l, n1, n2); }
      else { AlikeOtherStep(a, b, l, n1, n2); }
    }
  }

  predicate SameLines(x: seq<Event>, y: seq<Event>) {
    |x| == |y| && forall k :: 0 <= k < |x| ==> x[k].line == y[k].line && IsStored(CommandOf(x[k].line))
  }

  /** Replaying stored lines at other times, from a state with the same view. */
  lemma {:induction false} RunAlike(a: Net, b: Net, x: seq<Event>, y: seq<Event>)
    requires Alike(a, b) && Sound(a) && Sound(b) && SameLines(x, y) && Accepted(a, x)
    ensures Accepted(b, y) && Alike(Run(a, x), Run(b, y))
    decreases |x|
  {
    hide Alike, View, Sound, Accepts, Step, IsStored;
    if x != [] {
      StepAlike(a, b, x[0].line, x[0].now, y[0].now);
      RunAlike(Step(a, x[0].line, x[0].now), Step(b, y[0].line, y[0].now), x[1..], y[1..]);
    }
  }
}
