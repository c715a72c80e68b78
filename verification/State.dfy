/** The network state as a value: who is known, which channels exist and who is on them.
    `people[0]` is the user's own nick (`me`), `people[1..]` is the list of known nicks, and
    a channel refers to its members by their position in `people`. */
module State {
  import opened Base
  import opened Casemap
  import opened Info
  import opened Line

  // ----------------------------------------------------------------- entities

  /** struct network_nick without its list of channels. */
  datatype Nick = Nick(
    query: bool, nick: string, fullname: Option<string>, username: Option<string>,
    hostname: Option<string>, hostmask: Option<string>, modes: set<char>, server: Option<string>, hops: int)

  /** struct nicklist_entry. */
  datatype ListEntry = ListEntry(hostmask: string, setBy: Option<string>, timeSet: int)

  /** struct irc_channel_state without its list of nicks. */
  datatype ChanData = ChanData(
    name: string, topic: Option<string>, topicSetTime: int, topicSetBy: Option<string>,
    mode: char, modes: set<char>, creationTime: int,
    namreplyStarted: bool, banlistStarted: bool, invitelistStarted: bool, exceptlistStarted: bool,
    modeReceived: bool, lists: map<char, seq<ListEntry>>, present: set<char>, options: map<char, string>)

  /** struct channel_nick as a channel sees it. */
  datatype Member = Member(who: nat, modes: set<char>, lastUpdate: int, lastFlags: Option<string>)

  datatype Chan = Chan(data: ChanData, members: seq<Member>)

  datatype Net = Net(channels: seq<Chan>, people: seq<Nick>, info: Info, away: bool)

  function NewNick(name: string): (n: Nick) {
    Nick(false, name, None, None, None, None, {}, None, -1)
  }

  /** irc_channel_state_new. */
  function NewChan(name: string): (c: ChanData) {
    ChanData(name, None, 0, None, '\0', {}, 0, false, false, false, false, false, map[], {}, map[])
  }

  /** network_state_init. */
  function InitialNet(nick: string, username: string, hostname: string): (s: Net)
    ensures Sound(s)
  {
    Net([], [Nick(true, nick, None, Some(username), Some(hostname),
                  Some(nick + "!" + username + "@" + hostname), {}, None, 0)], FRESH, false)
  }

  // ------------------------------------------------------------------ soundness

  /** Members are known people and nobody is on a channel twice. */
  predicate SoundMembers(ms: seq<Member>, n: nat) {
    && (forall j :: 0 <= j < |ms| ==> ms[j].who < n)
    && (forall i, j :: 0 <= i < j < |ms| ==> ms[i].who != ms[j].who)
  }

  /** What every state in every run keeps: `me` exists, is never a candidate for collection,
      and the membership relation is well-formed. */
  predicate Sound(s: Net) {
    && |s.people| >= 1 && s.people[0].query
    && (forall i :: 0 <= i < |s.channels| ==> SoundMembers(s.channels[i].members, |s.people|))
  }

  // -------------------------------------------------------------------- lookup

  /** The position of the first name equal to `name` under the casemapping, or `|names|`. */
  function FirstMatch(cm: Casemapping, names: seq<string>, name: string): (i: nat)
    ensures i <= |names|
    ensures forall k :: 0 <= k < i ==> !Same(cm, names[k], name)
    ensures i < |names| ==> Same(cm, names[i], name)
  {
    if names == [] || Same(cm, names[0], name) then 0
    else 1 + FirstMatch(cm, names[1..], name)
  }

  function PeopleNames(people: seq<Nick>): (r: seq<string>)
    ensures |r| == |people| && forall i :: 0 <= i < |r| ==> r[i] == people[i].nick
  {
    seq(|people|, i requires 0 <= i < |people| => people[i].nick)
  }

  function ChanNames(channels: seq<Chan>): (r: seq<string>)
    ensures |r| == |channels| && forall i :: 0 <= i < |r| ==> r[i] == channels[i].data.name
  {
    seq(|channels|, i requires 0 <= i < |channels| => channels[i].data.name)
  }

  function MemberNames(people: seq<Nick>, ms: seq<Member>): (r: seq<string>)
    requires forall j :: 0 <= j < |ms| ==> ms[j].who < |people|
    ensures |r| == |ms| && forall j :: 0 <= j < |r| ==> r[j] == people[ms[j].who].nick
  {
    seq(|ms|, j requires 0 <= j < |ms| => people[ms[j].who].nick)
  }

  /** find_channel. */
  function FindChan(s: Net, name: string): (i: nat)
    ensures i <= |s.channels|
  {
    FirstMatch(s.info.casemapping, ChanNames(s.channels), name)
  }

  /** find_network_nick: `me` is tried first. */
  function FindPerson(s: Net, name: string): (k: nat)
    ensures k <= |s.people|
  {
    FirstMatch(s.info.casemapping, PeopleNames(s.people), name)
  }

  /** find_channel_nick: one prefix character is ignored. */
  function FindMember(s: Net, i: nat, name: string): (j: nat)
    requires Sound(s) && i < |s.channels|
    ensures j <= |s.channels[i].members|
  {
    FirstMatch(s.info.casemapping, MemberNames(s.people, s.channels[i].members), StripPrefix(s.info, name))
  }

  predicate KnownChan(s: Net, name: string) { FindChan(s, name) < |s.channels| }

  predicate KnownPerson(s: Net, name: string) { FindPerson(s, name) < |s.people| }

  /** Whether a name can be given to find_add_network_nick. */
  predicate CanAdd(s: Net, name: string) { KnownPerson(s, name) || !HasPrefix(s.info, name) }

  predicate IsMe(s: Net, name: string)
    requires |s.people| >= 1
  {
    Eq(s.info, name, s.people[0].nick)
  }

  // ------------------------------------------------------------------ updating

  function WithChan(s: Net, i: nat, d: ChanData): (r: Net)
    requires i < |s.channels|
    ensures Sound(s) ==> Sound(r)
  {
    s.(channels := s.channels[i := s.channels[i].(data := d)])
  }

  function WithPerson(s: Net, k: nat, n: Nick): (r: Net)
    requires k < |s.people|
    ensures Sound(s) && (k == 0 ==> n.query) ==> Sound(r)
  {
    s.(people := s.people[k := n])
  }

  function WithMembers(s: Net, i: nat, ms: seq<Member>): (r: Net)
    requires i < |s.channels|
    ensures Sound(s) && SoundMembers(ms, |s.people|) ==> Sound(r)
  {
    s.(channels := s.channels[i := s.channels[i].(members := ms)])
  }

  /** find_add_channel. */
  function AddChan(s: Net, name: string): (r: Net)
    ensures Sound(s) ==> Sound(r)
    ensures FindChan(s, name) < |r.channels|
  {
    if KnownChan(s, name) then s else s.(channels := s.channels + [Chan(NewChan(name), [])])
  }

  /** find_add_network_nick. */
  function AddPerson(s: Net, name: string): (r: Net)
    ensures Sound(s) ==> Sound(r)
    ensures FindPerson(s, name) < |r.people| && |s.people| <= |r.people|
  {
    if KnownPerson(s, name) then s else s.(people := s.people + [NewNick(name)])
  }

  function PrefixMode(info: Info, name: string): (m: set<char>) {
    if HasPrefix(info, name) && ModeByPrefix(info, name[0]).Some? then {ModeByPrefix(info, name[0]).value} else {}
  }

  /** A name with at most one prefix character. */
  predicate OnePrefix(info: Info, name: string) { !HasPrefix(info, StripPrefix(info, name)) }

  /** find_add_channel_nick: a new member is appended, known to the network or not. */
  function AddMember(s: Net, i: nat, name: string): (r: Net)
    requires Sound(s) && i < |s.channels| && OnePrefix(s.info, name)
    ensures Sound(r) && |r.channels| == |s.channels| && r.info == s.info
  {
    var realname := StripPrefix(s.info, name);
    if FindMember(s, i, realname) < |s.channels[i].members| then s
    else
      var s1 := AddPerson(s, realname);
      var k := FindPerson(s, realname);
      assert forall j :: 0 <= j < |s.channels[i].members| ==> s.channels[i].members[j].who != k by {
        NotAMember(s, i, realname);
      }
      WithMembers(s1, i, s.channels[i].members + [Member(k, PrefixMode(s.info, name), 0, None)])
  }

  lemma NotAMember(s: Net, i: nat, realname: string)
    requires Sound(s) && i < |s.channels| && !HasPrefix(s.info, realname)
    requires FindMember(s, i, realname) == |s.channels[i].members|
    ensures forall j :: 0 <= j < |s.channels[i].members| ==> s.channels[i].members[j].who != FindPerson(s, realname)
  {
    var names := MemberNames(s.people, s.channels[i].members);
    forall j | 0 <= j < |s.channels[i].members|
      ensures s.channels[i].members[j].who != FindPerson(s, realname)
    {
      assert !Same(s.info.casemapping, names[j], realname);
    }
  }

  // ------------------------------------------------------------------ removing

  predicate OnChan(c: Chan, k: nat) { exists j :: 0 <= j < |c.members| && c.members[j].who == k }

  predicate OnAny(s: Net, k: nat) { exists i :: 0 <= i < |s.channels| && OnChan(s.channels[i], k) }

  /** Positions after the `k`-th person has gone. */
  function Shift(k: nat, w: nat): (r: nat) { if w > k then w - 1 else w }

  function ShiftMembers(ms: seq<Member>, k: nat): (r: seq<Member>)
    ensures |r| == |ms| && forall j :: 0 <= j < |r| ==> r[j] == ms[j].(who := Shift(k, ms[j].who))
  {
    seq(|ms|, j requires 0 <= j < |ms| => ms[j].(who := Shift(k, ms[j].who)))
  }

  function ShiftChans(cs: seq<Chan>, k: nat): (r: seq<Chan>)
    ensures |r| == |cs|
    ensures forall i :: 0 <= i < |r| ==> r[i] == Chan(cs[i].data, ShiftMembers(cs[i].members, k))
  {
    seq(|cs|, i requires 0 <= i < |cs| => Chan(cs[i].data, ShiftMembers(cs[i].members, k)))
  }

  /** Forget a nick that is on no channel. */
  function DropPerson(s: Net, k: nat): (r: Net)
    requires Sound(s) && 1 <= k < |s.people| && !OnAny(s, k)
    ensures Sound(r) && |r.channels| == |s.channels|
  {
    var r := s.(people := Without(s.people, k), channels := ShiftChans(s.channels, k));
    assert Sound(r) by {
      forall i | 0 <= i < |r.channels|
        ensures SoundMembers(r.channels[i].members, |r.people|)
      {
        assert !OnChan(s.channels[i], k);
      }
    }
    r
  }

  /** A member leaves, whether or not anybody still needs to know the nick. */
  function RemoveMember(s: Net, i: nat, j: nat): (r: Net)
    requires Sound(s) && i < |s.channels| && j < |s.channels[i].members|
    ensures Sound(r) && |r.channels| == |s.channels|
  {
    WithMembers(s, i, Without(s.channels[i].members, j))
  }

  /** free_channel_nick: the member leaves, and a nick that is left without a channel and
      without a query is forgotten. */
  function DropMember(s: Net, i: nat, j: nat): (r: Net)
    requires Sound(s) && i < |s.channels| && j < |s.channels[i].members|
    ensures Sound(r) && |r.channels| == |s.channels| && r.info == s.info
    ensures |r.channels[i].members| == |s.channels[i].members| - 1
    ensures r.people[0] == s.people[0]
  {
    var k := s.channels[i].members[j].who;
    var s1 := RemoveMember(s, i, j);
    if !OnAny(s1, k) && !s1.people[k].query then DropPerson(s1, k) else s1
  }

  /** free_names. */
  function ClearMembers(s: Net, i: nat): (r: Net)
    requires Sound(s) && i < |s.channels|
    ensures Sound(r) && |r.channels| == |s.channels| && r.info == s.info
    ensures r.channels[i].members == [] && r.people[0] == s.people[0]
    decreases |s.channels[i].members|
  {
    if s.channels[i].members == [] then s else ClearMembers(DropMember(s, i, 0), i)
  }

  /** free_channel_state. */
  function DropChan(s: Net, i: nat): (r: Net)
    requires Sound(s) && i < |s.channels|
    ensures Sound(r) && |r.channels| == |s.channels| - 1 && r.info == s.info && r.people[0] == s.people[0]
  {
    var s1 := ClearMembers(s, i);
    s1.(channels := Without(s1.channels, i))
  }

  function MembersBut(ms: seq<Member>, k: nat): (r: seq<Member>)
    ensures forall m :: m in r <==> m in ms && m.who != k
    ensures |r| <= |ms|
  {
    if ms == [] then []
    else
      assert ms == [ms[0]] + ms[1..];
      if ms[0].who == k then MembersBut(ms[1..], k) else [ms[0]] + MembersBut(ms[1..], k)
  }

  lemma MembersButSound(ms: seq<Member>, k: nat, n: nat)
    requires SoundMembers(ms, n)
    ensures SoundMembers(MembersBut(ms, k), n)
  {
    if ms != [] {
      MembersButSound(ms[1..], k, n);
      var r := MembersBut(ms[1..], k);
      forall j | 0 <= j < |r|
        ensures r[j].who != ms[0].who
      {
        assert r[j] in ms[1..];
      }
    }
  }

  /** Somebody leaves every channel. */
  function LeaveAll(s: Net, k: nat): (r: Net)
    requires Sound(s)
    ensures Sound(r) && !OnAny(r, k) && r.people == s.people && |r.channels| == |s.channels|
  {
    var r := s.(channels := seq(|s.channels|, i requires 0 <= i < |s.channels| =>
                              Chan(s.channels[i].data, MembersBut(s.channels[i].members, k))));
    assert Sound(r) by {
      forall i | 0 <= i < |r.channels|
        ensures SoundMembers(r.channels[i].members, |r.people|)
      {
        MembersButSound(s.channels[i].members, k, |s.people|);
      }
    }
    assert !OnAny(r, k) by {
      forall i | 0 <= i < |r.channels|
        ensures !OnChan(r.channels[i], k)
      {
        var ms := r.channels[i].members;
        assert forall j :: 0 <= j < |ms| ==> ms[j] in ms;
      }
    }
    r
  }

  /** free_network_nick on somebody other than `me`. */
  function ForgetPerson(s: Net, k: nat): (r: Net)
    requires Sound(s) && 1 <= k < |s.people|
    ensures Sound(r) && |r.channels| == |s.channels|
  {
    DropPerson(LeaveAll(s, k), k)
  }

  lemma {:induction false} MembersButAll(ms: seq<Member>, k: nat)
    requires forall j :: 0 <= j < |ms| ==> ms[j].who != k
    ensures MembersBut(ms, k) == ms
  {
    if ms != [] {
      MembersButAll(ms[1..], k);
    }
  }

  /** Somebody on no channel has left them all. */
  lemma LeaveAllDone(s: Net, k: nat)
    requires Sound(s) && !OnAny(s, k)
    ensures LeaveAll(s, k) == s
  {
    var a := LeaveAll(s, k);
    forall i | 0 <= i < |s.channels|
      ensures a.channels[i] == s.channels[i]
    {
      assert !OnChan(s.channels[i], k);
      MembersButAll(s.channels[i].members, k);
    }
    assert a.channels == s.channels;
  }
}
