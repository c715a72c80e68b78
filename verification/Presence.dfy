/** Who is where after a JOIN, PART, KICK, QUIT or NAMES line, said of the line's words and of the names
    of channels and nicks as lookups see them. */
module Presence {
  import opened Base
  import opened Casemap
  import opened Info
  import opened Line
  import opened State
  import opened Handlers
  import opened Unique
  import opened Names
  import opened Seating
  import opened Occupancy
  import opened Effects

  /** One name, not a list of them. */
  predicate OneName(name: string) { name != "" && ',' !in name }

  lemma OneNameIs(name: string)
    requires OneName(name)
    ensures StrSplit(name, ',') == [name]
  {
    IndexOfIs(name, ',', |name|);
  }

  /** JOIN: the channel is known, has the nick, and keeps whom it had; the nick has its hostmask. */
  lemma JoinLine(s: Net, l: Line, now: int)
    requires Sound(s) && Distinct(s) && Says(l, "JOIN", 1) && OneName(l.args[1]) && l.origin.Some?
    requires '!' in l.origin.value && NickPart(l.origin.value) != "" && !HasPrefix(s.info, NickPart(l.origin.value))
    ensures Accepts(s, l)
    ensures var r, nick := Step(s, l, now), NickPart(l.origin.value);
            && Rooms(r) == Entered(Rooms(s), Key(s, l.args[1]), Key(s, nick)) && Distinct(r) && r.info == s.info
            && KnownPerson(r, nick) && r.people[FindPerson(r, nick)].hostmask == l.origin
  {
    var name, o := l.args[1], l.origin.value;
    assert CommandOf(l) == JOIN by { WordNamed("JOIN", l.args[0]); }
    OneNameIs(name);
    assert OnePrefix(s.info, NickPart(o)) by { hide NickPart; }
    hide AsciiEq, CommandNamed, Accepts, Step, JoinOne, Distinct, Rooms, StrSplit, OnePrefix, HasPrefix, NickPart;
    MemberLine(s, l, now);
    assert [name][1..] == [] && JoinAll(JoinOne(s, name, o), [], o) == JoinOne(s, name, o);
    JoinRooms(s, name, o);
    JoinerMasked(s, name, o);
  }

  lemma JoinerMasked(s: Net, name: string, origin: string)
    requires Sound(s) && Distinct(s) && '!' in origin && !HasPrefix(s.info, NickPart(origin))
    ensures OnePrefix(s.info, NickPart(origin))
    ensures var r := JoinOne(s, name, origin);
            KnownPerson(r, NickPart(origin)) && r.people[FindPerson(r, NickPart(origin))].hostmask == Some(origin)
  {
    var nick, r := NickPart(origin), JoinOne(s, name, origin);
    var s1, i := AddChan(s, name), FindChan(s, name);
    var s2, j := AddMember(s1, i, nick), FindMember(s1, i, nick);
    var k := s2.channels[i].members[j].who;
    hide SetHostmask, AddMember, FindMember, AddChan, Distinct;
    JoinOneKeeps(s, name, origin);
    SetMaskIs(s2.people[k], origin);
    PersonIsFound(r, k, nick) by { DistinctPeople(r); }
  }

  lemma SetMaskIs(n: Nick, mask: string)
    requires '!' in mask
    ensures SetHostmask(n, mask).hostmask == Some(mask)
    ensures n.hostmask != Some(mask) ==> SetHostmask(n, mask).nick == NickPart(mask)
  {}

  /** PART: the nick is off the channel; when it is the user's own the channel is gone. */
  lemma PartLine(s: Net, l: Line, now: int)
    requires Sound(s) && Distinct(s) && Says(l, "PART", 1) && OneName(l.args[1]) && l.origin.Some?
    ensures Accepts(s, l)
    ensures var r, nick, m := Step(s, l, now), NickPart(l.origin.value), Rooms(s);
            var c, n := Key(s, l.args[1]), Key(s, StripPrefix(s.info, nick));
            && Distinct(r) && r.info == s.info
            && Rooms(r) == if c !in m then m else if Key(s, nick) == MeKey(s) then m - {c} else m[c := m[c] - {n}]
  {
    var name, nick := l.args[1], NickPart(l.origin.value);
    assert CommandOf(l) == PART by { WordNamed("PART", l.args[0]); }
    OneNameIs(name);
    hide AsciiEq, CommandNamed, Accepts, Step, PartOne, Distinct, Rooms, StrSplit, HasPrefix, NickPart;
    MemberLine(s, l, now);
    assert [name][1..] == [] && PartAll(PartOne(s, name, nick), [], nick) == PartOne(s, name, nick);
    PartRooms(s, name, nick);
  }

  /** KICK: likewise for the nick that is kicked, if it is there; the origin does not matter. */
  lemma KickLine(s: Net, l: Line, now: int)
    requires Sound(s) && Distinct(s) && Says(l, "KICK", 2) && OneName(l.args[1]) && OneName(l.args[2]) && l.origin.Some?
    ensures Accepts(s, l)
    ensures var r, nick, m := Step(s, l, now), l.args[2], Rooms(s);
            var c, n := Key(s, l.args[1]), Key(s, StripPrefix(s.info, nick));
            && Distinct(r) && r.info == s.info
            && Rooms(r) == if c !in m || n !in m[c] then m
                           else if Key(s, nick) == MeKey(s) then m - {c} else m[c := m[c] - {n}]
  {
    var name, nick := l.args[1], l.args[2];
    assert CommandOf(l) == KICK by { WordNamed("KICK", l.args[0]); }
    OneNameIs(name);
    OneNameIs(nick);
    hide AsciiEq, CommandNamed, Accepts, Step, KickOne, Distinct, Rooms, StrSplit, HasPrefix, NickPart;
    MemberLine(s, l, now);
    assert KickAll(s, [name], [nick]) == KickOne(s, name, nick) by { KickCons(s, name, nick, [], []); }
    KickRooms(s, name, nick);
  }

  // ------------------------------------------------------------------------------- QUIT

  /** A nick gone from every room. */
  function Departed(m: map<string, set<string>>, n: string): (r: map<string, set<string>>) {
    map c | c in m :: m[c] - {n}
  }

  /** QUIT: the nick is on no channel any more, and forgotten if it is not the user's own. */
  lemma QuitLine(s: Net, l: Line, now: int)
    requires Sound(s) && Distinct(s) && Says(l, "QUIT", 0) && l.origin.Some?
    ensures Accepts(s, l)
    ensures var r, k := Step(s, l, now), FindPerson(s, NickPart(l.origin.value));
            && Distinct(r) && r.info == s.info
            && (k == |s.people| ==> r == s)
            && (k < |s.people| ==> Rooms(r) == Departed(Rooms(s), Key(s, NickPart(l.origin.value))))
            && (k == 0 ==> r.people == s.people)
            && (0 < k < |s.people| ==> r.people == Without(s.people, k))
  {
    var nick := NickPart(l.origin.value);
    var k := FindPerson(s, nick);
    assert CommandOf(l) == QUIT by { WordNamed("QUIT", l.args[0]); }
    hide AsciiEq, CommandNamed, NickPart;
    OneQuitLine(s, l, now);
    hide Accepts, Step;
    QuitKeeps(s, nick);
    if k < |s.people| {
      assert Same(s.info.casemapping, PeopleNames(s.people)[k], nick);
      hide LeaveAll, Rooms, DropPerson, Distinct;
      LeaveAllRooms(s, k);
      if k > 0 { DropPersonRooms(LeaveAll(s, k), k); }
    }
  }

  lemma OneQuitLine(s: Net, l: Line, now: int)
    requires Sound(s) && CommandOf(l) == QUIT && l.args != [] && l.origin.Some?
    ensures Accepts(s, l) && Step(s, l, now) == Quit(s, NickPart(l.origin.value))
  {
    hide CommandNamed, Sound, Quit;
  }

  lemma DropPersonRooms(s: Net, k: nat)
    requires Sound(s) && 1 <= k < |s.people| && !OnAny(s, k)
    ensures Rooms(DropPerson(s, k)) == Rooms(s) && DropPerson(s, k).people == Without(s.people, k)
  {
    DropPersonRoster(s, k);
  }

  /** The roster without anybody of that name. */
  function WithoutNick(r: set<(string, string)>, n: string): (q: set<(string, string)>) { set p | p in r && p.1 != n }

  lemma LeaveAllRooms(s: Net, k: nat)
    requires Sound(s) && Distinct(s) && k < |s.people|
    ensures Rooms(LeaveAll(s, k)) == Departed(Rooms(s), Key(s, s.people[k].nick))
  {
    var r, n := LeaveAll(s, k), Key(s, s.people[k].nick);
    LeaveAllRoster(s, k);
    assert Chans(r) == Chans(s) by {
      assert forall i :: 0 <= i < |s.channels| ==> ChanKey(r, i) == ChanKey(s, i);
    }
    hide LeaveAll, Roster, Chans, Distinct;
    forall c | c in Chans(s)
      ensures Named(WithoutNick(Roster(s), n), c) == Named(Roster(s), c) - {n}
    {
      NamedWithoutNick(Roster(s), n, c);
    }
  }

  lemma NamedWithoutNick(r: set<(string, string)>, n: string, c: string)
    ensures Named(WithoutNick(r, n), c) == Named(r, c) - {n}
  {
    forall x
      ensures x in Named(WithoutNick(r, n), c) <==> x in Named(r, c) && x != n
    {
      if x in Named(r, c) && x != n {
        var p :| p in r && p.0 == c && p.1 == x;
        assert p in WithoutNick(r, n);
      }
    }
  }

  lemma LeaveAllRoster(s: Net, k: nat)
    requires Sound(s) && Distinct(s) && k < |s.people|
    ensures Roster(LeaveAll(s, k)) == WithoutNick(Roster(s), Key(s, s.people[k].nick))
  {
    var r, n := LeaveAll(s, k), Key(s, s.people[k].nick);
    forall p
      ensures p in Roster(r) <==> p in WithoutNick(Roster(s), n)
    {
      if p in Roster(r) {
        var i, j :| 0 <= i < |r.channels| && 0 <= j < |r.channels[i].members| && p == (ChanKey(r, i), NickKey(r, i, j));
        StayerWas(s, k, i, j);
      }
      if p in WithoutNick(Roster(s), n) {
        var i, j :| 0 <= i < |s.channels| && 0 <= j < |s.channels[i].members| && p == (ChanKey(s, i), NickKey(s, i, j));
        StayerIs(s, k, i, j);
      }
    }
  }

  lemma StayerWas(s: Net, k: nat, i: nat, j: nat)
    requires Sound(s) && Distinct(s) && k < |s.people| && i < |s.channels|
    requires j < |LeaveAll(s, k).channels[i].members|
    ensures var r := LeaveAll(s, k);
            (ChanKey(r, i), NickKey(r, i, j)) in WithoutNick(Roster(s), Key(s, s.people[k].nick))
  {
    var r := LeaveAll(s, k);
    var m := r.channels[i].members[j];
    assert m in r.channels[i].members && m in s.channels[i].members && m.who != k;
    var y :| 0 <= y < |s.channels[i].members| && s.channels[i].members[y] == m;
    KeyOfOther(s, m.who, k);
    assert (ChanKey(s, i), NickKey(s, i, y)) in Roster(s);
  }

  lemma StayerIs(s: Net, k: nat, i: nat, j: nat)
    requires Sound(s) && k < |s.people| && i < |s.channels| && j < |s.channels[i].members|
    requires NickKey(s, i, j) != Key(s, s.people[k].nick)
    ensures var r := LeaveAll(s, k); (ChanKey(s, i), NickKey(s, i, j)) in Roster(r)
  {
    var r, m := LeaveAll(s, k), s.channels[i].members[j];
    assert m in s.channels[i].members && m.who != k && m in r.channels[i].members;
    var y :| 0 <= y < |r.channels[i].members| && r.channels[i].members[y] == m;
    assert (ChanKey(r, i), NickKey(r, i, y)) in Roster(r);
  }

  lemma KeyOfOther(s: Net, x: nat, k: nat)
    requires Distinct(s) && x < |s.people| && k < |s.people| && x != k
    ensures Key(s, s.people[x].nick) != Key(s, s.people[k].nick)
  {
    var names := PeopleNames(s.people);
    assert !Same(s.info.casemapping, names[if x < k then x else k], names[if x < k then k else x]);
  }

  // ------------------------------------------------------------------------------ NAMES

  /** 353: besides its members, the channel has the sort of channel that the reply says. */
  lemma NamesLine(s: Net, l: Line, now: int)
    requires Sound(s) && Numbered(l, "353", 4)
    ensures !KnownChan(s, l.args[3]) ==> Accepts(s, l) && Step(s, l, now) == s
    ensures KnownChan(s, l.args[3]) ==>
              var i, names := FindChan(s, l.args[3]), StrSplit(l.args[4], ' ');
              && (Accepts(s, l) <==> AllOnePrefix(s.info, names))
              && (Accepts(s, l) ==>
                    && |Step(s, l, now).channels| == |s.channels|
                    && Step(s, l, now).channels[i].data ==
                       s.channels[i].data.(mode := if l.args[2] == "" then '\0' else l.args[2][0],
                                           namreplyStarted := true))
  {
    assert CommandOf(l) == N353 by { NumericsNamed("353"); }
    hide CommandNamed, Accepts, Step, AddNames, OpenNames, StrSplit, AllOnePrefix, FindChan;
    OneNamesLine(s, l, now);
    if KnownChan(s, l.args[3]) && AllOnePrefix(s.info, StrSplit(l.args[4], ' ')) {
      var i := FindChan(s, l.args[3]);
      AddNamesData(OpenNames(s, i, l.args[2]), i, StrSplit(l.args[4], ' '));
      OpenedData(s, i, l.args[2]);
    }
  }

  lemma OneNamesLine(s: Net, l: Line, now: int)
    requires Sound(s) && CommandOf(l) == N353 && |l.args| > 4
    ensures Accepts(s, l) <==> (KnownChan(s, l.args[3]) ==> AllOnePrefix(s.info, StrSplit(l.args[4], ' ')))
    ensures !KnownChan(s, l.args[3]) ==> Step(s, l, now) == s
    ensures KnownChan(s, l.args[3]) && Accepts(s, l) ==>
              Step(s, l, now) == NamReply(s, FindChan(s, l.args[3]), l.args[2], StrSplit(l.args[4], ' '))
  {
    hide CommandNamed, Sound, NamReply, StrSplit, OnePrefix, FindChan, ChanmodesOk, UserHostsOk;
  }

  lemma OpenedData(s: Net, i: nat, mode: string)
    requires Sound(s) && i < |s.channels|
    ensures OpenNames(s, i, mode).channels[i].data ==
            s.channels[i].data.(mode := if mode == "" then '\0' else mode[0], namreplyStarted := true)
  {
    var s1 := WithChan(s, i, s.channels[i].data.(mode := if mode == "" then '\0' else mode[0]));
    ClearMembersData(s1, i);
    hide ClearMembers;
  }
}
