/** Who is on which channel, whatever the order: the pairs of folded channel name and folded nick. */
module Seating {
  import opened Base
  import opened Casemap
  import opened Info
  import opened Line
  import opened State
  import opened Handlers
  import opened Unique

  function Key(s: Net, name: string): (r: string) { Folded(s.info, name) }

  function ChanKey(s: Net, i: nat): (r: string)
    requires i < |s.channels|
  {
    Key(s, s.channels[i].data.name)
  }

  function NickKey(s: Net, i: nat, j: nat): (r: string)
    requires Sound(s) && i < |s.channels| && j < |s.channels[i].members|
  {
    Key(s, s.people[s.channels[i].members[j].who].nick)
  }

  /** The channels by name. */
  function Chans(s: Net): (r: set<string>) { set i | 0 <= i < |s.channels| :: ChanKey(s, i) }

  /** The pairs (channel, member). */
  function Roster(s: Net): (r: set<(string, string)>)
    requires Sound(s)
  {
    set i, j | 0 <= i < |s.channels| && 0 <= j < |s.channels[i].members| :: (ChanKey(s, i), NickKey(s, i, j))
  }

  /** The roster without a channel. */
  function WithoutChan(r: set<(string, string)>, c: string): (q: set<(string, string)>) { set p | p in r && p.0 != c }

  // ----------------------------------------------------------------------- distinctness

  lemma KeysDiffer(s: Net)
    requires Distinct(s) && Sound(s)
    ensures forall i, x :: 0 <= i < |s.channels| && 0 <= x < |s.channels| && ChanKey(s, i) == ChanKey(s, x) ==> i == x
    ensures forall i, j, y ::
              (0 <= i < |s.channels| && 0 <= j < |s.channels[i].members| && 0 <= y < |s.channels[i].members| &&
               NickKey(s, i, j) == NickKey(s, i, y)) ==> j == y
  {
    var cs := ChanNames(s.channels);
    forall i, x | 0 <= i < |s.channels| && 0 <= x < |s.channels| && ChanKey(s, i) == ChanKey(s, x)
      ensures i == x
    {
      assert Same(s.info.casemapping, cs[i], cs[x]) && Same(s.info.casemapping, cs[x], cs[i]);
    }
    forall i, j, y | 0 <= i < |s.channels| && 0 <= j < |s.channels[i].members| && 0 <= y < |s.channels[i].members| &&
        NickKey(s, i, j) == NickKey(s, i, y)
      ensures j == y
    {
      MembersDistinct(s, i);
      var ns := MemberNames(s.people, s.channels[i].members);
      assert Same(s.info.casemapping, ns[j], ns[y]) && Same(s.info.casemapping, ns[y], ns[j]);
    }
  }

  // ------------------------------------------------------------------------- operations

  /** Two states in which every channel has the same name and members of the same names. */
  predicate SameSeats(s: Net, r: Net)
    requires Sound(s) && Sound(r)
  {
    && |r.channels| == |s.channels|
    && (forall i :: 0 <= i < |s.channels| ==>
        ChanKey(r, i) == ChanKey(s, i) && |r.channels[i].members| == |s.channels[i].members|)
    && (forall i, j :: 0 <= i < |s.channels| && 0 <= j < |s.channels[i].members| ==>
        NickKey(r, i, j) == NickKey(s, i, j))
  }

  lemma SameSeatsRoster(s: Net, r: Net)
    requires Sound(s) && Sound(r) && SameSeats(s, r)
    ensures Roster(r) == Roster(s) && Chans(r) == Chans(s)
  {}

  lemma AddChanRoster(s: Net, name: string)
    requires Sound(s)
    ensures Roster(AddChan(s, name)) == Roster(s) && Chans(AddChan(s, name)) == Chans(s) + {Key(s, name)}
    ensures ChanKey(AddChan(s, name), FindChan(s, name)) == Key(s, name)
  {
    var r, k := AddChan(s, name), FindChan(s, name);
    if KnownChan(s, name) {
      assert Same(s.info.casemapping, ChanNames(s.channels)[k], name);
      assert ChanKey(s, k) == Key(s, name);
      assert Key(s, name) in Chans(s);
    } else {
      assert forall i :: 0 <= i < |s.channels| ==> ChanKey(r, i) == ChanKey(s, i);
      assert forall i, j :: 0 <= i < |s.channels| && 0 <= j < |s.channels[i].members| ==>
          NickKey(r, i, j) == NickKey(s, i, j);
      assert r.channels[|s.channels|].members == [] && ChanKey(r, |s.channels|) == Key(s, name);
      assert Roster(r) <= Roster(s) && Roster(s) <= Roster(r);
      assert Chans(r) <= Chans(s) + {Key(s, name)};
      assert Chans(s) <= Chans(r);
    }
  }

  /** Somebody's record changes but not the nick, up to spelling. */
  lemma RespellRoster(s: Net, k: nat, n: Nick)
    requires Sound(s) && k < |s.people| && Eq(s.info, s.people[k].nick, n.nick) && (k == 0 ==> n.query)
    ensures Roster(WithPerson(s, k, n)) == Roster(s) && Chans(WithPerson(s, k, n)) == Chans(s)
  {
    SameSeatsRoster(s, WithPerson(s, k, n));
  }

  lemma AddPersonRoster(s: Net, name: string)
    requires Sound(s)
    ensures Roster(AddPerson(s, name)) == Roster(s) && Chans(AddPerson(s, name)) == Chans(s)
  {
    SameSeatsRoster(s, AddPerson(s, name));
  }

  /** Everybody's seat but those on one channel. */
  lemma OneChannelRoster(s: Net, r: Net, i: nat)
    requires Sound(s) && Sound(r) && Distinct(s) && i < |s.channels| == |r.channels|
    requires forall x :: 0 <= x < |s.channels| ==> ChanKey(r, x) == ChanKey(s, x)
    requires forall x :: 0 <= x < |s.channels| && x != i ==> |r.channels[x].members| == |s.channels[x].members|
    requires forall x, j :: 0 <= x < |s.channels| && x != i && 0 <= j < |s.channels[x].members| ==>
             NickKey(r, x, j) == NickKey(s, x, j)
    ensures WithoutChan(Roster(r), ChanKey(s, i)) == WithoutChan(Roster(s), ChanKey(s, i)) && Chans(r) == Chans(s)
  {
    KeysDiffer(s);
    hide Sound, Distinct;
    var c := ChanKey(s, i);
    forall p | p in Roster(s) && p.0 != c
      ensures p in Roster(r)
    {
      var x, j :| 0 <= x < |s.channels| && 0 <= j < |s.channels[x].members| && p == (ChanKey(s, x), NickKey(s, x, j));
      assert p == (ChanKey(r, x), NickKey(r, x, j));
    }
    forall p | p in Roster(r) && p.0 != c
      ensures p in Roster(s)
    {
      var x, j :| 0 <= x < |r.channels| && 0 <= j < |r.channels[x].members| && p == (ChanKey(r, x), NickKey(r, x, j));
      assert p == (ChanKey(s, x), NickKey(s, x, j));
    }
  }

  /** The members of one channel, by name. */
  function Seats(s: Net, i: nat): (r: set<string>)
    requires Sound(s) && i < |s.channels|
  {
    set j | 0 <= j < |s.channels[i].members| :: NickKey(s, i, j)
  }

  function Pairs(c: string, ns: set<string>): (r: set<(string, string)>) { set n | n in ns :: (c, n) }

  lemma RosterSplit(s: Net, i: nat)
    requires Sound(s) && Distinct(s) && i < |s.channels|
    ensures Roster(s) == WithoutChan(Roster(s), ChanKey(s, i)) + Pairs(ChanKey(s, i), Seats(s, i))
  {
    KeysDiffer(s);
    hide Distinct;
    var c := ChanKey(s, i);
    forall p | p in Roster(s) && p.0 == c
      ensures p.1 in Seats(s, i)
    {
      var x, j :| 0 <= x < |s.channels| && 0 <= j < |s.channels[x].members| && p == (ChanKey(s, x), NickKey(s, x, j));
      assert x == i;
    }
    assert forall n :: n in Seats(s, i) ==> (c, n) in Roster(s);
  }

  /** Replacing the members of one channel. */
  lemma WithMembersRoster(s: Net, i: nat, ms: seq<Member>)
    requires Sound(s) && Distinct(s) && i < |s.channels| && SoundMembers(ms, |s.people|)
    ensures var r := WithMembers(s, i, ms);
            && Chans(r) == Chans(s) && ChanKey(r, i) == ChanKey(s, i)
            && Roster(r) == WithoutChan(Roster(s), ChanKey(s, i)) + Pairs(ChanKey(s, i), Seats(r, i))
  {
    var r := WithMembers(s, i, ms);
    SameNamesKeep(s, r);
    OneChannelRoster(s, r, i);
    RosterSplit(r, i);
  }

  lemma AddMemberRoster(s: Net, i: nat, name: string)
    requires Sound(s) && Distinct(s) && i < |s.channels| && OnePrefix(s.info, name)
    ensures var r := AddMember(s, i, name);
            && Chans(r) == Chans(s) && ChanKey(r, i) == ChanKey(s, i)
            && Roster(r) == Roster(s) + {(ChanKey(s, i), Key(s, StripPrefix(s.info, name)))}
  {
    var realname := StripPrefix(s.info, name);
    var ms, j := s.channels[i].members, FindMember(s, i, realname);
    if j < |ms| {
      assert Same(s.info.casemapping, MemberNames(s.people, ms)[j], realname);
      assert NickKey(s, i, j) == Key(s, realname);
      assert (ChanKey(s, i), Key(s, realname)) in Roster(s);
    } else {
      hide Distinct, Roster, Chans;
      NotAMember(s, i, realname);
      AddPersonRoster(s, realname);
      AddPersonKeeps(s, realname);
      AppendRoster(AddPerson(s, realname), i, Member(FindPerson(s, realname), PrefixMode(s.info, name), 0, None));
    }
  }

  lemma AppendRoster(s: Net, i: nat, m: Member)
    requires Sound(s) && Distinct(s) && i < |s.channels| && m.who < |s.people|
    requires forall j :: 0 <= j < |s.channels[i].members| ==> s.channels[i].members[j].who != m.who
    ensures var r := WithMembers(s, i, s.channels[i].members + [m]);
            && Sound(r) && Chans(r) == Chans(s) && ChanKey(r, i) == ChanKey(s, i)
            && Roster(r) == Roster(s) + {(ChanKey(s, i), Key(s, s.people[m.who].nick))}
  {
    hide Distinct, Roster, Chans;
    var ms, c, n := s.channels[i].members + [m], ChanKey(s, i), Key(s, s.people[m.who].nick);
    WithMembersRoster(s, i, ms);
    RosterSplit(s, i);
    SeatsSnoc(s, i, m);
    PairsPlus(c, Seats(s, i), n);
  }

  lemma PairsPlus(c: string, ns: set<string>, n: string)
    ensures Pairs(c, ns + {n}) == Pairs(c, ns) + {(c, n)}
    ensures Pairs(c, ns - {n}) == Pairs(c, ns) - {(c, n)}
  {}

  lemma SeatsSnoc(s: Net, i: nat, m: Member)
    requires Sound(s) && i < |s.channels| && SoundMembers(s.channels[i].members + [m], |s.people|) && m.who < |s.people|
    ensures Seats(WithMembers(s, i, s.channels[i].members + [m]), i) == Seats(s, i) + {Key(s, s.people[m.who].nick)}
  {
    var r, n := WithMembers(s, i, s.channels[i].members + [m]), |s.channels[i].members|;
    assert forall j :: 0 <= j < n ==> NickKey(r, i, j) == NickKey(s, i, j);
    assert NickKey(r, i, n) == Key(s, s.people[m.who].nick);
  }

  lemma RemoveMemberRoster(s: Net, i: nat, j: nat)
    requires Sound(s) && Distinct(s) && i < |s.channels| && j < |s.channels[i].members|
    ensures var r := RemoveMember(s, i, j);
            && Chans(r) == Chans(s) && ChanKey(r, i) == ChanKey(s, i)
            && Roster(r) == Roster(s) - {(ChanKey(s, i), NickKey(s, i, j))}
  {
    var c, n, r := ChanKey(s, i), NickKey(s, i, j), RemoveMember(s, i, j);
    WithMembersRoster(s, i, Without(s.channels[i].members, j));
    RosterSplit(s, i);
    KeysDiffer(s);
    assert Seats(r, i) == Seats(s, i) - {n} by {
      assert forall x :: 0 <= x < |r.channels[i].members| ==>
          NickKey(r, i, x) == NickKey(s, i, if x < j then x else x + 1);
      assert forall x :: 0 <= x < |s.channels[i].members| && x != j ==>
          NickKey(s, i, x) == NickKey(r, i, if x < j then x else x - 1);
    }
    PairsPlus(c, Seats(s, i), n);
    assert (c, n) !in WithoutChan(Roster(s), c);
  }

  lemma DropPersonRoster(s: Net, k: nat)
    requires Sound(s) && 1 <= k < |s.people| && !OnAny(s, k)
    ensures SameSeats(s, DropPerson(s, k))
    ensures Roster(DropPerson(s, k)) == Roster(s) && Chans(DropPerson(s, k)) == Chans(s)
  {
    var r := DropPerson(s, k);
    forall i, j | 0 <= i < |s.channels| && 0 <= j < |s.channels[i].members|
      ensures NickKey(r, i, j) == NickKey(s, i, j)
    {
      assert !OnChan(s.channels[i], k);
    }
    SameSeatsRoster(s, r);
  }

  /** free_channel_nick takes one pair off the roster. */
  lemma DropMemberRoster(s: Net, i: nat, j: nat)
    requires Sound(s) && Distinct(s) && i < |s.channels| && j < |s.channels[i].members|
    ensures var r := DropMember(s, i, j);
            && Chans(r) == Chans(s) && ChanKey(r, i) == ChanKey(s, i)
            && Roster(r) == Roster(s) - {(ChanKey(s, i), NickKey(s, i, j))}
  {
    hide Distinct;
    RemoveMemberRoster(s, i, j);
    var s1, k := RemoveMember(s, i, j), s.channels[i].members[j].who;
    if !OnAny(s1, k) && !s1.people[k].query {
      DropPersonRoster(s1, k);
    }
  }

  lemma {:induction false} ClearMembersRoster(s: Net, i: nat)
    requires Sound(s) && Distinct(s) && i < |s.channels|
    ensures var r := ClearMembers(s, i);
            Chans(r) == Chans(s) && ChanKey(r, i) == ChanKey(s, i) && Roster(r) == WithoutChan(Roster(s), ChanKey(s, i))
    decreases |s.channels[i].members|
  {
    if s.channels[i].members == [] {
      RosterSplit(s, i);
      assert Pairs(ChanKey(s, i), Seats(s, i)) == {};
    } else {
      hide Distinct, Roster, ChanKey, NickKey, DropMember;
      DropMemberRoster(s, i, 0);
      DropMemberKeeps(s, i, 0);
      ClearMembersRoster(DropMember(s, i, 0), i);
      WithoutTwice(Roster(s), ChanKey(s, i), NickKey(s, i, 0));
    }
  }

  lemma WithoutTwice(r: set<(string, string)>, c: string, n: string)
    ensures WithoutChan(r - {(c, n)}, c) == WithoutChan(r, c)
    ensures WithoutChan(WithoutChan(r, c), c) == WithoutChan(r, c)
  {}

  /** free_channel_state. */
  lemma DropChanRoster(s: Net, i: nat)
    requires Sound(s) && Distinct(s) && i < |s.channels|
    ensures var r := DropChan(s, i);
            Chans(r) == Chans(s) - {ChanKey(s, i)} && Roster(r) == WithoutChan(Roster(s), ChanKey(s, i))
  {
    hide ClearMembers, Distinct, Chans, Roster, ChanKey, WithoutChan;
    ClearMembersRoster(s, i);
    ClearMembersKeeps(s, i);
    DropEmptyChans(ClearMembers(s, i), i);
    DropEmptyRoster(ClearMembers(s, i), i);
  }

  lemma DropEmptyChans(s: Net, i: nat)
    requires Sound(s) && Distinct(s) && i < |s.channels|
    ensures Chans(s.(channels := Without(s.channels, i))) == Chans(s) - {ChanKey(s, i)}
  {
    KeysDiffer(s);
    hide Sound, Distinct;
    var r := s.(channels := Without(s.channels, i));
    assert forall x :: 0 <= x < |r.channels| ==> ChanKey(r, x) == ChanKey(s, if x < i then x else x + 1);
    assert forall x :: 0 <= x < |s.channels| && x != i ==> ChanKey(s, x) == ChanKey(r, if x < i then x else x - 1);
  }

  lemma DropEmptyRoster(s: Net, i: nat)
    requires Sound(s) && i < |s.channels| && s.channels[i].members == []
    ensures Sound(s.(channels := Without(s.channels, i)))
    ensures Roster(s.(channels := Without(s.channels, i))) == Roster(s)
  {
    var r := s.(channels := Without(s.channels, i));
    assert Sound(r);
    hide Sound;
    SeatsAmong(r, s, seq(|r.channels|, x => if x < i then x else x + 1));
    forall p | p in Roster(s)
      ensures p in Roster(r)
    {
      var x, j :| 0 <= x < |s.channels| && 0 <= j < |s.channels[x].members| && p == (ChanKey(s, x), NickKey(s, x, j));
      var y := if x < i then x else x - 1;
      assert r.channels[y] == s.channels[x];
      SeatAgain(s, r, x, y, j);
    }
  }

  lemma SeatAgain(s: Net, r: Net, x: nat, y: nat, j: nat)
    requires Sound(s) && Sound(r) && r.people == s.people && r.info == s.info
    requires x < |s.channels| && y < |r.channels| && r.channels[y] == s.channels[x] && j < |s.channels[x].members|
    ensures (ChanKey(s, x), NickKey(s, x, j)) in Roster(r)
  {
    hide Sound;
    assert (ChanKey(r, y), NickKey(r, y, j)) in Roster(r);
  }

  /** Every channel of `r` is one of `s`. */
  lemma SeatsAmong(r: Net, s: Net, o: seq<int>)
    requires Sound(s) && Sound(r) && r.people == s.people && r.info == s.info && |o| == |r.channels|
    requires forall x :: 0 <= x < |o| ==> 0 <= o[x] < |s.channels| && r.channels[x] == s.channels[o[x]]
    ensures Roster(r) <= Roster(s)
  {
    hide Sound;
    forall p | p in Roster(r)
      ensures p in Roster(s)
    {
      var x, j :| 0 <= x < |r.channels| && 0 <= j < |r.channels[x].members| && p == (ChanKey(r, x), NickKey(r, x, j));
      SeatAgain(r, s, x, o[x], j);
    }
  }
}
