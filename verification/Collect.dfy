/** Which nicks are forgotten: when a channel's members go, exactly those who have no query and
    are on no other channel. */
module Collect {
  import opened Base
  import opened Info
  import opened Line
  import opened Casemap
  import opened State
  import opened Handlers
  import opened Unique

  /** Somebody is on a channel other than the `i`-th. */
  predicate OnOther(s: Net, i: nat, k: nat) {
    exists x :: 0 <= x < |s.channels| && x != i && OnChan(s.channels[x], k)
  }

  /** Who is still known once the `i`-th channel has lost all its members. */
  predicate Stays(s: Net, i: nat, k: nat)
    requires k < |s.people| && i < |s.channels|
  {
    s.people[k].query || OnOther(s, i, k) || !OnChan(s.channels[i], k)
  }

  function Flags(s: Net, i: nat): (r: seq<bool>)
    requires i < |s.channels|
    ensures |r| == |s.people| && forall k :: 0 <= k < |r| ==> r[k] == Stays(s, i, k)
  {
    seq(|s.people|, k requires 0 <= k < |s.people| => Stays(s, i, k))
  }

  function Kept(people: seq<Nick>, flags: seq<bool>): (r: seq<Nick>)
    requires |people| == |flags|
  {
    if people == [] then [] else (if flags[0] then [people[0]] else []) + Kept(people[1..], flags[1..])
  }

  lemma {:induction false} KeptWithout(people: seq<Nick>, flags: seq<bool>, k: nat)
    requires |people| == |flags| && k < |flags| && !flags[k]
    ensures Kept(Without(people, k), Without(flags, k)) == Kept(people, flags)
  {
    if k == 0 {
      assert Without(people, 0) == people[1..] && Without(flags, 0) == flags[1..];
    } else {
      KeptWithout(people[1..], flags[1..], k - 1);
      assert Without(people, k)[1..] == Without(people[1..], k - 1);
      assert Without(flags, k)[1..] == Without(flags[1..], k - 1);
    }
  }

  lemma {:induction false} KeptAll(people: seq<Nick>, flags: seq<bool>)
    requires |people| == |flags| && forall k :: 0 <= k < |flags| ==> flags[k]
    ensures Kept(people, flags) == people
  {
    if people != [] { KeptAll(people[1..], flags[1..]); }
  }

  /** Who is where, once somebody on no channel has been dropped from the list of people. */
  lemma OnChanShifts(c: Chan, k: nat, w: nat)
    requires !OnChan(c, k) && w != k
    ensures OnChan(Chan(c.data, ShiftMembers(c.members, k)), Shift(k, w)) <==> OnChan(c, w)
  {
    var ms, r := c.members, ShiftMembers(c.members, k);
    if OnChan(c, w) {
      var j :| 0 <= j < |ms| && ms[j].who == w;
      assert r[j].who == Shift(k, w);
    }
    if j :| 0 <= j < |r| && r[j].who == Shift(k, w) {
      assert ms[j].who != k;
      assert ms[j].who == w;
    }
  }

  lemma StaysShifts(s: Net, i: nat, k: nat, w: nat)
    requires Sound(s) && i < |s.channels| && 1 <= k < |s.people| && w < |s.people| && w != k && !OnAny(s, k)
    ensures Stays(DropPerson(s, k), i, Shift(k, w)) <==> Stays(s, i, w)
  {
    var r := DropPerson(s, k);
    assert r.people[Shift(k, w)] == s.people[w];
    forall x | 0 <= x < |s.channels|
      ensures OnChan(r.channels[x], Shift(k, w)) <==> OnChan(s.channels[x], w)
    {
      assert !OnChan(s.channels[x], k);
      OnChanShifts(s.channels[x], k, w);
    }
  }

  lemma DropPersonFlags(s: Net, i: nat, k: nat)
    requires Sound(s) && i < |s.channels| && 1 <= k < |s.people| && !OnAny(s, k)
    ensures Flags(DropPerson(s, k), i) == Without(Flags(s, i), k)
  {
    var a, b := Flags(DropPerson(s, k), i), Without(Flags(s, i), k);
    forall x | 0 <= x < |b|
      ensures a[x] == b[x]
    {
      var w := if x < k then x else x + 1;
      StaysShifts(s, i, k, w);
      assert Shift(k, w) == x;
    }
  }

  /** Taking a member off changes nobody's fate but that member's. */
  lemma RemoveMemberStays(s: Net, i: nat, j: nat, w: nat)
    requires Sound(s) && i < |s.channels| && j < |s.channels[i].members| && w < |s.people|
    ensures var s1, k := RemoveMember(s, i, j), s.channels[i].members[j].who;
            && (OnOther(s1, i, w) <==> OnOther(s, i, w))
            && (OnChan(s1.channels[i], w) <==> w != k && OnChan(s.channels[i], w))
            && (OnAny(s1, k) <==> OnOther(s, i, k))
  {
    var s1, ms := RemoveMember(s, i, j), s.channels[i].members;
    var r := s1.channels[i].members;
    assert forall x :: 0 <= x < |s.channels| && x != i ==> s1.channels[x] == s.channels[x];
    forall v
      ensures OnChan(s1.channels[i], v) <==> v != ms[j].who && OnChan(s.channels[i], v)
    {
      if y :| 0 <= y < |ms| && ms[y].who == v && y != j {
        assert r[if y < j then y else y - 1] == ms[y];
      }
      if y :| 0 <= y < |r| && r[y].who == v {
        assert ms[if y < j then y else y + 1].who == v;
      }
    }
    assert OnOther(s1, i, ms[j].who) <==> OnOther(s, i, ms[j].who);
  }

  /** One member going: who stays in the end is as before. */
  lemma DropMemberKept(s: Net, i: nat, j: nat)
    requires Sound(s) && i < |s.channels| && j < |s.channels[i].members|
    ensures var r := DropMember(s, i, j); Kept(r.people, Flags(r, i)) == Kept(s.people, Flags(s, i))
  {
    var s1, k := RemoveMember(s, i, j), s.channels[i].members[j].who;
    var a, b := Flags(s, i), Flags(s1, i);
    forall w | 0 <= w < |s.people|
      ensures b[w] == (a[w] || w == k)
    {
      RemoveMemberStays(s, i, j, w);
    }
    RemoveMemberStays(s, i, j, k);
    assert OnChan(s.channels[i], k);
    hide Stays, OnOther, OnChan;
    if !OnAny(s1, k) && !s1.people[k].query {
      assert k >= 1;
      DropPersonFlags(s1, i, k);
      KeptWithout(s.people, b[k := false], k);
      assert a == b[k := false];
      assert Without(b, k) == Without(a, k);
    } else {
      assert a == b;
    }
  }

  /** free_names: exactly those who have a query, are elsewhere too or were not there at all
      remain, in their order. */
  lemma {:induction false} ClearMembersCollects(s: Net, i: nat)
    requires Sound(s) && i < |s.channels|
    ensures ClearMembers(s, i).people == Kept(s.people, Flags(s, i))
    decreases |s.channels[i].members|
  {
    if s.channels[i].members == [] {
      KeptAll(s.people, Flags(s, i));
    } else {
      DropMemberKept(s, i, 0);
      ClearMembersCollects(DropMember(s, i, 0), i);
    }
  }

  /** free_channel_nick, for PART and KICK: a nick on its last channel is forgotten exactly when
      it has no query. */
  lemma DropMemberCollects(s: Net, i: nat, j: nat)
    requires Sound(s) && i < |s.channels| && j < |s.channels[i].members|
    ensures var k := s.channels[i].members[j].who;
            DropMember(s, i, j).people ==
            if OnOther(s, i, k) || s.people[k].query then s.people else Without(s.people, k)
  {
    RemoveMemberStays(s, i, j, s.channels[i].members[j].who);
  }

  // -------------------------------------------------------------------------- line by line

  /** Known for no reason: not `me`, no query, on no channel. */
  predicate Stranded(s: Net, k: int) { 1 <= k < |s.people| && !s.people[k].query && !OnAny(s, k) }

  ghost predicate StrandedNick(s: Net, nick: string) { exists k :: Stranded(s, k) && s.people[k].nick == nick }

  /** Nobody is left behind who was not before. */
  ghost predicate LeavesNobody(s: Net, r: Net) {
    r.info == s.info && forall k :: Stranded(r, k) ==> StrandedNick(s, r.people[k].nick)
  }

  lemma NobodyTrans(a: Net, b: Net, c: Net)
    requires LeavesNobody(a, b) && LeavesNobody(b, c)
    ensures LeavesNobody(a, c)
  {
    hide OnAny;
    forall k | Stranded(c, k)
      ensures StrandedNick(a, c.people[k].nick)
    {
      var x :| Stranded(b, x) && b.people[x].nick == c.people[k].nick;
      assert StrandedNick(a, b.people[x].nick);
    }
  }

  lemma NobodyRefl(s: Net)
    ensures LeavesNobody(s, s)
  {
    hide OnAny;
    forall k | Stranded(s, k)
      ensures StrandedNick(s, s.people[k].nick)
    {}
  }

  /** The same people, and nobody seated before is without a seat. */
  lemma SeatsKept(s: Net, r: Net)
    requires r.info == s.info && r.people == s.people && forall k :: OnAny(s, k) ==> OnAny(r, k)
    ensures LeavesNobody(s, r)
  {
    forall k | Stranded(r, k)
      ensures StrandedNick(s, r.people[k].nick)
    {
      assert Stranded(s, k);
    }
  }

  /** free_channel_nick leaves nobody behind. */
  lemma DropMemberLeavesNobody(s: Net, i: nat, j: nat)
    requires Sound(s) && i < |s.channels| && j < |s.channels[i].members|
    ensures LeavesNobody(s, DropMember(s, i, j))
  {
    var s1, r, k := RemoveMember(s, i, j), DropMember(s, i, j), s.channels[i].members[j].who;
    forall x | Stranded(r, x)
      ensures StrandedNick(s, r.people[x].nick)
    {
      if !OnAny(s1, k) && !s1.people[k].query {
        var w := if x < k then x else x + 1;
        DropPersonSeats(s1, k, w);
        assert r.people[x] == s.people[w] && !OnAny(s1, w);
        RemoveMemberSeats(s, i, j, w);
        assert Stranded(s, w);
      } else {
        RemoveMemberSeats(s, i, j, x);
        assert Stranded(s, x);
      }
    }
  }

  lemma RemoveMemberSeats(s: Net, i: nat, j: nat, w: nat)
    requires Sound(s) && i < |s.channels| && j < |s.channels[i].members| && w < |s.people|
    requires w != s.channels[i].members[j].who
    ensures OnAny(RemoveMember(s, i, j), w) <==> OnAny(s, w)
  {
    RemoveMemberStays(s, i, j, w);
    var r := RemoveMember(s, i, j);
    if OnAny(s, w) {
      var x :| 0 <= x < |s.channels| && OnChan(s.channels[x], w);
      assert x != i ==> OnOther(s, i, w);
    }
    assert OnOther(r, i, w) ==> OnAny(r, w);
    if OnAny(r, w) {
      var x :| 0 <= x < |r.channels| && OnChan(r.channels[x], w);
      assert x != i ==> OnOther(r, i, w);
    }
    assert OnOther(s, i, w) ==> OnAny(s, w);
  }

  lemma DropPersonSeats(s: Net, k: nat, w: nat)
    requires Sound(s) && 1 <= k < |s.people| && !OnAny(s, k) && w < |s.people| && w != k
    ensures OnAny(DropPerson(s, k), Shift(k, w)) <==> OnAny(s, w)
  {
    var r := DropPerson(s, k);
    forall x | 0 <= x < |s.channels|
      ensures OnChan(r.channels[x], Shift(k, w)) <==> OnChan(s.channels[x], w)
    {
      assert !OnChan(s.channels[x], k);
      OnChanShifts(s.channels[x], k, w);
    }
  }

  lemma {:induction false} ClearLeavesNobody(s: Net, i: nat)
    requires Sound(s) && i < |s.channels|
    ensures LeavesNobody(s, ClearMembers(s, i))
    decreases |s.channels[i].members|
  {
    hide LeavesNobody, DropMember, Sound;
    NobodyRefl(s);
    if s.channels[i].members != [] {
      DropMemberLeavesNobody(s, i, 0);
      ClearLeavesNobody(DropMember(s, i, 0), i);
      NobodyTrans(s, DropMember(s, i, 0), ClearMembers(s, i));
    }
  }

  lemma DropChanLeavesNobody(s: Net, i: nat)
    requires Sound(s) && i < |s.channels|
    ensures LeavesNobody(s, DropChan(s, i))
  {
    hide ClearMembers, LeavesNobody, Sound;
    ClearLeavesNobody(s, i);
    var s1, r := ClearMembers(s, i), DropChan(s, i);
    forall k | OnAny(s1, k)
      ensures OnAny(r, k)
    {
      var x :| 0 <= x < |s1.channels| && OnChan(s1.channels[x], k);
      assert x != i;
      assert r.channels[if x < i then x else x - 1] == s1.channels[x];
    }
    SeatsKept(s1, r);
    NobodyTrans(s, s1, r);
  }

  lemma WithChanLeavesNobody(s: Net, i: nat, d: ChanData)
    requires i < |s.channels|
    ensures LeavesNobody(s, WithChan(s, i, d))
  {
    var r := WithChan(s, i, d);
    forall k | OnAny(s, k)
      ensures OnAny(r, k)
    {
      var x :| 0 <= x < |s.channels| && OnChan(s.channels[x], k);
      assert OnChan(r.channels[x], k);
    }
    SeatsKept(s, r);
  }

  lemma SeatedStays(s: Net, i: nat, name: string)
    requires Sound(s) && i < |s.channels| && OnePrefix(s.info, name)
    ensures forall k :: OnAny(s, k) ==> OnAny(AddMember(s, i, name), k)
  {
    var r := AddMember(s, i, name);
    forall k | OnAny(s, k)
      ensures OnAny(r, k)
    {
      var x :| 0 <= x < |s.channels| && OnChan(s.channels[x], k);
      var j :| 0 <= j < |s.channels[x].members| && s.channels[x].members[j].who == k;
      assert r.channels[x].members[j] == s.channels[x].members[j];
      assert OnChan(r.channels[x], k);
    }
  }

  /** Somebody new is seated at once. */
  lemma AddMemberLeavesNobody(s: Net, i: nat, name: string)
    requires Sound(s) && i < |s.channels| && OnePrefix(s.info, name)
    ensures LeavesNobody(s, AddMember(s, i, name))
  {
    NobodyRefl(s);
    SeatedStays(s, i, name);
    var r, realname := AddMember(s, i, name), StripPrefix(s.info, name);
    var ms := s.channels[i].members;
    if FindMember(s, i, realname) == |ms| {
      forall k | Stranded(r, k)
        ensures StrandedNick(s, r.people[k].nick)
      {
        assert r.channels[i].members[|ms|].who == FindPerson(s, realname) &&
            OnChan(r.channels[i], FindPerson(s, realname));
        assert k < |s.people|;
        assert Stranded(s, k);
      }
    }
  }

  lemma PartLeavesNobody(s: Net, name: string, nick: string)
    requires Sound(s)
    ensures LeavesNobody(s, PartOne(s, name, nick)) && LeavesNobody(s, KickOne(s, name, nick))
  {
    hide LeavesNobody, DropMember, DropChan, FindChan, FindMember, IsMe;
    NobodyRefl(s);
    var i := FindChan(s, name);
    if i < |s.channels| {
      DropChanLeavesNobody(s, i);
      var j := FindMember(s, i, nick);
      if j < |s.channels[i].members| {
        DropMemberLeavesNobody(s, i, j);
        DropChanLeavesNobody(DropMember(s, i, j), i);
        NobodyTrans(s, DropMember(s, i, j), DropChan(DropMember(s, i, j), i));
      }
    }
  }

  lemma {:induction false} PartAllLeavesNobody(s: Net, names: seq<string>, nick: string)
    requires Sound(s)
    ensures LeavesNobody(s, PartAll(s, names, nick))
    decreases |names|
  {
    hide LeavesNobody, PartOne, KickOne, Sound;
    NobodyRefl(s);
    if names != [] {
      PartLeavesNobody(s, names[0], nick);
      PartAllLeavesNobody(PartOne(s, names[0], nick), names[1..], nick);
      NobodyTrans(s, PartOne(s, names[0], nick), PartAll(s, names, nick));
    }
  }

  lemma {:induction false} KickAllLeavesNobody(s: Net, names: seq<string>, nicks: seq<string>)
    requires Sound(s)
    ensures LeavesNobody(s, KickAll(s, names, nicks))
    decreases |names|
  {
    hide LeavesNobody, PartOne, KickOne, Sound;
    NobodyRefl(s);
    if names != [] && nicks != [] {
      PartLeavesNobody(s, names[0], nicks[0]);
      KickAllLeavesNobody(KickOne(s, names[0], nicks[0]), names[1..], nicks[1..]);
      NobodyTrans(s, KickOne(s, names[0], nicks[0]), KickAll(s, names, nicks));
    }
  }

  lemma {:induction false} AddNamesLeavesNobody(s: Net, i: nat, names: seq<string>)
    requires Sound(s) && i < |s.channels| && AllOnePrefix(s.info, names)
    ensures LeavesNobody(s, AddNames(s, i, names))
    decreases |names|
  {
    hide LeavesNobody, AddMember, Sound, OnePrefix;
    NobodyRefl(s);
    if names != [] {
      var s1 := if names[0] == "" then s else AddMember(s, i, names[0]);
      AddMemberLeavesNobody(s, i, names[0]);
      AddNamesLeavesNobody(s1, i, names[1..]);
      NobodyTrans(s, s1, AddNames(s, i, names));
    }
  }

  lemma NamesLeaveNobody(s: Net, i: nat, mode: string, names: seq<string>)
    requires Sound(s) && i < |s.channels| && AllOnePrefix(s.info, names)
    ensures LeavesNobody(s, NamReply(s, i, mode, names))
  {
    hide LeavesNobody, ClearMembers, AddNames, Sound, AllOnePrefix;
    var s1 := WithChan(s, i, s.channels[i].data.(mode := if mode == "" then '\0' else mode[0]));
    WithChanLeavesNobody(s, i, s1.channels[i].data);
    ClearLeavesNobody(s1, i);
    var c, o := ClearMembers(s1, i), OpenNames(s, i, mode);
    NobodyTrans(s, s1, c);
    WithChanLeavesNobody(c, i, c.channels[i].data.(namreplyStarted := true));
    NobodyTrans(s, c, WithChan(c, i, c.channels[i].data.(namreplyStarted := true)));
    AddNamesLeavesNobody(o, i, names);
    NobodyTrans(s, o, NamReply(s, i, mode, names));
  }

  /** Whatever PART, KICK or a NAMES refresh does, whoever loses a last membership by it and has no
      query is forgotten. */
  lemma LastMembershipForgets(s: Net, l: Line, now: int, k: nat)
    requires Sound(s) && Distinct(s) && Accepts(s, l)
    requires (CommandOf(l) == PART || CommandOf(l) == KICK || CommandOf(l) == N353)
    requires 1 <= k < |s.people| && !s.people[k].query && OnAny(s, k)
    ensures var r, nick := Step(s, l, now), s.people[k].nick;
            forall x :: 1 <= x < |r.people| && r.people[x].nick == nick && !r.people[x].query ==> OnAny(r, x)
  {
    hide Sound, Distinct, LeavesNobody, CommandNamed, PartAll, KickAll, NamReply, OnAny;
    var r, a := Step(s, l, now), l.args;
    NobodyRefl(s);
    if Complete(l) {
      if CommandOf(l) == PART && l.origin.Some? {
        PartAllLeavesNobody(s, StrSplit(a[1], ','), NickPart(l.origin.value));
      }
      if CommandOf(l) == KICK && l.origin.Some? { KickAllLeavesNobody(s, StrSplit(a[1], ','), StrSplit(a[2], ',')); }
      if CommandOf(l) == N353 && KnownChan(s, a[3]) {
        NamesLeaveNobody(s, FindChan(s, a[3]), a[2], StrSplit(a[4], ' '));
      }
    }
    assert LeavesNobody(s, r);
    SeatedIsKept(s, r, k);
  }

  lemma SeatedIsKept(s: Net, r: Net, k: nat)
    requires Sound(s) && Distinct(s) && LeavesNobody(s, r) && 1 <= k < |s.people| && OnAny(s, k)
    ensures forall x :: 1 <= x < |r.people| && r.people[x].nick == s.people[k].nick && !r.people[x].query ==>
            OnAny(r, x)
  {
    var names := PeopleNames(s.people);
    forall w | Stranded(s, w)
      ensures s.people[w].nick != s.people[k].nick
    {
      assert w != k;
      assert !Same(s.info.casemapping, names[if w < k then w else k], names[if w < k then k else w]);
    }
    assert !StrandedNick(s, s.people[k].nick);
    assert forall x :: 1 <= x < |r.people| && r.people[x].nick == s.people[k].nick ==> !Stranded(r, x);
  }
}
