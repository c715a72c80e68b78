/** libirc/state.c on the pointer graph: every operation keeps the link invariant and does to
    the graph what Handlers does to the value the graph stands for. */
module Network {
  import opened Base
  import opened Casemap
  import opened Info
  import opened Isupport
  import opened Line
  import opened State
  import opened Handlers
  import opened Graph

  // ------------------------------------------------------- facts about the value

  lemma MembersButSkips(ms: seq<Member>, k: nat, j: nat)
    requires j < |ms| && ms[j].who == k
    ensures MembersBut(Without(ms, j), k) == MembersBut(ms, k)
  {
    if j == 0 {
      assert Without(ms, 0) == ms[1..];
    } else {
      assert Without(ms, j)[1..] == Without(ms[1..], j - 1);
      MembersButSkips(ms[1..], k, j - 1);
    }
  }

  lemma LeaveAllAfter(s: Net, i: nat, j: nat, k: nat)
    requires Sound(s) && i < |s.channels| && j < |s.channels[i].members| && s.channels[i].members[j].who == k
    ensures LeaveAll(RemoveMember(s, i, j), k) == LeaveAll(s, k)
  {
    MembersButSkips(s.channels[i].members, k, j);
    var a, b := LeaveAll(RemoveMember(s, i, j), k), LeaveAll(s, k);
    assert a.channels == b.channels;
  }

  /** Nothing remembers what a forgotten nick was like. */
  lemma ForgetIgnores(s: Net, k: nat, n: Nick)
    requires Sound(s) && 1 <= k < |s.people|
    ensures ForgetPerson(WithPerson(s, k, n), k) == ForgetPerson(s, k)
  {
    var t := WithPerson(s, k, n);
    assert LeaveAll(t, k).channels == LeaveAll(s, k).channels;
    assert Without(t.people, k) == Without(s.people, k);
  }

  /** A nick without channel_nicks is on no channel, and conversely. */
  lemma NoLinksNoChannels(h: Heap, pending: set<Ptr>, n: Ptr, k: nat, info: Info, away: bool)
    requires Linked(h, pending) && Readable(h) && n in h.nick && k < |People(h)| && People(h)[k] == n
    ensures h.nick[n].channelNicks == [] <==> !OnAny(Flat(h, info, away), k)
  {
    var s := Flat(h, info, away);
    LinkedFacts(h, pending);
    if h.nick[n].channelNicks != [] {
      var q := h.nick[n].channelNicks[0];
      var i, j := Place(h, pending, q);
      PositionIs(People(h), n, k);
      assert s.channels[i].members[j].who == k;
      assert OnChan(s.channels[i], k);
    } else if OnAny(s, k) {
      var i :| 0 <= i < |s.channels| && OnChan(s.channels[i], k);
      var j :| 0 <= j < |s.channels[i].members| && s.channels[i].members[j].who == k;
      NoStrayLink(h, pending, n, h.channels[i], j);
    }
  }

  lemma NoStrayLink(h: Heap, pending: set<Ptr>, n: Ptr, c: Ptr, j: nat)
    requires Linked(h, pending) && c in h.chan && j < |h.chan[c].nicks| && n in h.nick && h.nick[n].channelNicks == []
    ensures h.chan[c].nicks[j] in h.link && h.link[h.chan[c].nicks[j]].globalNick != n
  {
    assert h.chan[c].nicks[j] in h.chan[c].nicks;
    hide PairsUnique, Listed, Addresses;
  }

  /** Where a channel_nick stands in the value. */
  lemma Place(h: Heap, pending: set<Ptr>, q: Ptr) returns (i: nat, j: nat)
    requires Linked(h, pending) && q in h.link && q !in pending
    ensures i < |h.channels| && h.channels[i] == h.link[q].channel && h.channels[i] in h.chan
    ensures j < |h.chan[h.channels[i]].nicks| && h.chan[h.channels[i]].nicks[j] == q
    ensures h.link[q].globalNick in h.nick && q in h.nick[h.link[q].globalNick].channelNicks
    ensures NoDup(h.nick[h.link[q].globalNick].channelNicks)
  {
    hide PairsUnique, Addresses;
    var c := h.link[q].channel;
    i := Position(h.channels, c);
    j := Position(h.chan[c].nicks, q);
  }

  /** A channel_nick listed by a nick is one of that nick's. */
  lemma LinkOfNick(h: Heap, pending: set<Ptr>, n: Ptr, q: Ptr)
    requires Linked(h, pending) && n in h.nick && q in h.nick[n].channelNicks
    ensures q in h.link && q !in pending && h.link[q].globalNick == n
  {
    hide PairsUnique, Listed, Addresses, ChanLists;
  }

  lemma LinkOfChan(h: Heap, pending: set<Ptr>, c: Ptr, q: Ptr)
    requires Linked(h, pending) && c in h.chan && q in h.chan[c].nicks
    ensures q in h.link && q !in pending && h.link[q].channel == c && h.link[q].globalNick in h.nick
  {
    hide PairsUnique, Listed, Addresses;
  }

  lemma NickPosition(h: Heap, pending: set<Ptr>, n: Ptr) returns (k: nat)
    requires Linked(h, pending) && n in h.nick
    ensures NoDup(People(h)) && k < |People(h)| && People(h)[k] == n && (k == 0 <==> n == ME)
    ensures (n != ME ==> n in h.nicks)
  {
    LinkedFacts(h, pending);
    hide PairsUnique, Addresses, ChanLists, NickLists;
    k := Position(People(h), n);
    assert People(h)[0] == ME;
  }

  /** The channel_nick `q` is the `j`-th of the `i`-th channel. */
  ghost predicate At(h: Heap, q: Ptr, i: nat, j: nat) {
    && q in h.link && i < |h.channels| && h.channels[i] == h.link[q].channel && h.channels[i] in h.chan
    && j < |h.chan[h.channels[i]].nicks| && h.chan[h.channels[i]].nicks[j] == q
  }

  ghost predicate Unlinkable(h: Heap, q: Ptr) {
    && q in h.link && h.link[q].channel in h.chan && h.link[q].globalNick in h.nick
    && q in h.chan[h.link[q].channel].nicks && q in h.nick[h.link[q].globalNick].channelNicks
  }

  lemma RemoveIsShorter(ps: seq<Ptr>, p: Ptr)
    requires p in ps
    ensures |Remove(ps, p)| == |ps| - 1
  {}

  lemma UnlinkKeeps(h: Heap, q: Ptr)
    requires Unlinkable(h, q)
    ensures var r := Unlink(h, q);
            && People(r) == People(h) && r.nicks == h.nicks && r.channels == h.channels
            && (forall n :: n in h.nick ==> n in r.nick && r.nick[n].data == h.nick[n].data)
  {}

  lemma WhoIsAt(h: Heap, q: Ptr, i: nat, j: nat, k: nat, info: Info, away: bool)
    requires Readable(h) && At(h, q, i, j) && NoDup(People(h)) && k < |People(h)|
    requires People(h)[k] == h.link[q].globalNick
    ensures i < |Flat(h, info, away).channels| && j < |Flat(h, info, away).channels[i].members|
    ensures k < |Flat(h, info, away).people| && Flat(h, info, away).channels[i].members[j].who == k
    ensures Flat(h, info, away).people[k] == h.nick[h.link[q].globalNick].data
  {
    PositionIs(People(h), h.link[q].globalNick, k);
  }

  /** DropMember, with the two ends of its decision apart. */
  lemma DropMemberSplits(s: Net, i: nat, j: nat)
    requires Sound(s) && i < |s.channels| && j < |s.channels[i].members|
    ensures var k, s1 := s.channels[i].members[j].who, RemoveMember(s, i, j);
            && k < |s.people| && s1.people == s.people
            && (!OnAny(s1, k) && !s.people[k].query ==> k >= 1 && DropMember(s, i, j) == ForgetPerson(s1, k))
            && (OnAny(s1, k) || s.people[k].query ==> DropMember(s, i, j) == s1)
  {
    var k, s1 := s.channels[i].members[j].who, RemoveMember(s, i, j);
    if !OnAny(s1, k) && !s.people[k].query {
      LeaveAllDone(s1, k);
    }
  }

  lemma ForgetIsLeave(s: Net, t: Net, k: nat)
    requires Sound(s) && Sound(t) && 1 <= k < |s.people| && t.people == s.people
    requires LeaveAll(t, k) == LeaveAll(s, k)
    ensures ForgetPerson(t, k) == ForgetPerson(s, k)
  {}

  lemma UnlinkCells(h: Heap, q: Ptr)
    requires Unlinkable(h, q)
    ensures var n := h.link[q].globalNick;
            var r := Unlink(h, q);
            && n in r.nick && r.nick[n].data == h.nick[n].data && r.chan.Keys == h.chan.Keys
            && |r.nick[n].channelNicks| == |h.nick[n].channelNicks| - 1
  {}

  lemma UnlinkChan(h: Heap, q: Ptr, j: nat)
    requires Unlinkable(h, q)
    ensures var c := h.link[q].channel;
            var r := Unlink(h, q);
            && r.chan.Keys == h.chan.Keys && r.chan[c].data == h.chan[c].data
            && |r.chan[c].nicks| == |h.chan[c].nicks| - 1
  {}

  lemma MembersOf(h: Heap, i: nat, info: Info, away: bool)
    requires Readable(h) && i < |h.channels|
    ensures i < |Flat(h, info, away).channels|
    ensures |Flat(h, info, away).channels[i].members| == |h.chan[h.channels[i]].nicks|
    ensures Flat(h, info, away).channels[i].data == h.chan[h.channels[i]].data
    ensures Flat(h, info, away).info == info
  {}

  lemma FirstMatchIs(cm: Casemapping, names: seq<string>, name: string, i: nat)
    requires i <= |names| && (forall y :: 0 <= y < i ==> !Same(cm, names[y], name))
    requires i < |names| ==> Same(cm, names[i], name)
    ensures FirstMatch(cm, names, name) == i
  {}

  /** Nobody at position `k` in the value means no channel_nick of that nick in the graph. */
  lemma NotLinkedYet(h: Heap, c: Ptr, i: nat, n: Ptr, k: nat, info: Info, away: bool)
    requires Readable(h) && NoDup(People(h)) && i < |h.channels| && h.channels[i] == c && k < |People(h)|
    requires People(h)[k] == n
    requires forall j :: 0 <= j < |Flat(h, info, away).channels[i].members| ==>
               Flat(h, info, away).channels[i].members[j].who != k
    ensures forall q :: q in h.chan[c].nicks && q in h.link ==> h.link[q].globalNick != n
  {
    forall q | q in h.chan[c].nicks && q in h.link
      ensures h.link[q].globalNick != n
    {
      var j :| 0 <= j < |h.chan[c].nicks| && h.chan[c].nicks[j] == q;
      assert Flat(h, info, away).channels[i].members[j] == MemberAt(People(h), h.link[q]);
      PositionIs(People(h), n, k);
    }
  }

  lemma MemberNameAt(h: Heap, i: nat, x: nat, info: Info, away: bool)
    requires Readable(h) && i < |h.channels| && x < |h.chan[h.channels[i]].nicks|
    requires Sound(Flat(h, info, away))
    ensures var s := Flat(h, info, away);
            MemberNames(s.people, s.channels[i].members)[x] ==
            h.nick[h.link[h.chan[h.channels[i]].nicks[x]].globalNick].data.nick
  {}

  lemma InfoOf(h: Heap, info: Info, away: bool)
    requires Readable(h)
    ensures Flat(h, info, away).info == info
  {}

  lemma MeOf(h: Heap, info: Info, away: bool)
    requires Readable(h)
    ensures Flat(h, info, away).info == info && |Flat(h, info, away).people| >= 1
    ensures ME in h.nick && Flat(h, info, away).people[0] == h.nick[ME].data
    ensures |Flat(h, info, away).channels| == |h.channels| && Flat(h, info, away).away == away
  {
    assert People(h)[0] == ME;
  }

  lemma SetHostmaskKeepsQuery(n: Nick, mask: string)
    requires '!' in mask
    ensures SetHostmask(n, mask).query == n.query
  {}

  lemma WhoNickKeepsQuery(n: Nick, a: seq<string>)
    requires |a| >= 9
    ensures WhoNick(n, a).query == n.query
  {}

  /** What a channel sees of its `j`-th member is what the channel_nick holds. */
  lemma LinkAt(h: Heap, q: Ptr, i: nat, j: nat, info: Info, away: bool)
    requires Readable(h) && At(h, q, i, j)
    ensures i < |Flat(h, info, away).channels| && j < |Flat(h, info, away).channels[i].members|
    ensures var m := Flat(h, info, away).channels[i].members[j];
            m.modes == h.link[q].modes && m.lastUpdate == h.link[q].lastUpdate && m.lastFlags == h.link[q].lastFlags
  {}

  /** The user-mode loop of handle_mode. */
  method EachUserMode(before: set<char>, text: string) returns (modes: set<char>)
    ensures modes == UserModes(before, text, true)
  {
    var x, on := 0, true;
    modes := before;
    while x < |text|
      invariant x <= |text| && UserModes(modes, text[x..], on) == UserModes(before, text, true)
    {
      assert text[x..][1..] == text[x + 1..];
      if text[x] == '+' { on := true; }
      else if text[x] == '-' { on := false; }
      else { modes := ToggleMode(modes, on, text[x]); }
      x := x + 1;
    }
  }

  predicate IsStatusLine(c: Command) { c in {N001, N004, N005, N221, N305, N306} }

  predicate SupportOk(l: Line) { CommandOf(l) == N005 ==> forall k :: 2 <= k < |l.args| - 1 ==> TokenOk(l.args[k]) }

  /** What such a line does. */
  function StatusStep(s: Net, l: Line): (r: Net)
    requires |s.people| >= 1 && IsStatusLine(CommandOf(l)) && Complete(l) && SupportOk(l)
  {
    var a := l.args;
    match CommandOf(l)
    case N001 => WithPerson(s, 0, s.people[0].(nick := a[1]))
    case N004 => s.(info := s.info.(userModes := Some(a[4]), channelModes := Some(a[5]), server := Some(a[2])))
    case N005 => s.(info := ParseTokens(s.info, a[2..|a| - 1]))
    case N221 => WithPerson(s, 0, s.people[0].(modes := StringToModes(a[1])))
    case N306 => s.(away := true)
    case N305 => s.(away := false)
  }

  lemma StatusIsOther(s: Net, l: Line, now: int)
    requires Sound(s) && Accepts(s, l) && Complete(l) && IsStatusLine(CommandOf(l)) && |s.people| >= 1
    ensures SupportOk(l) && OtherStep(s, l, now) == StatusStep(s, l)
  {
    hide Sound, CommandNamed, WithPerson, ParseTokens, StringToModes, UserHosts, UserHostsOk, ModeLine, RenameStep;
    hide QueryStep;
  }

  lemma TimeOnlyInWho(s: Net, l: Line, now: int)
    requires Sound(s) && Accepts(s, l) && Complete(l) && IsMemberLine(CommandOf(l))
    ensures CommandOf(l) != N352 ==> MemberStep(s, l, now) == MemberStep(s, l, 0)
  {}

  class NetworkState {
    var channels: seq<Ptr>
    var nicks: seq<Ptr>
    var chan: map<Ptr, ChanCell>
    var nick: map<Ptr, NickCell>
    var link: map<Ptr, LinkCell>
    var next: Ptr
    var info: Info
    var away: bool

    ghost function Mem(): (h: Heap)
      reads this
    {
      Heap(channels, nicks, chan, nick, link, next)
    }

    ghost predicate ValidBut(pending: set<Ptr>)
      reads this
    {
      Linked(Mem(), pending) && Readable(Mem()) && Sound(Flat(Mem(), info, away))
    }

    ghost predicate Valid()
      reads this
    {
      ValidBut({})
    }

    /** The state the graph stands for. */
    ghost function Value(): (s: Net)
      reads this
      requires Readable(Mem())
    {
      Flat(Mem(), info, away)
    }

    /** network_state_init. */
    constructor (nickname: string, username: string, hostname: string)
      ensures Valid() && Value() == InitialNet(nickname, username, hostname)
    {
      channels, nicks, chan, link, next, info, away := [], [], map[], map[], 1, FRESH, false;
      nick := map[ME := NickCell(InitialNet(nickname, username, hostname).people[0], [])];
      new;
      assert Listed(Mem()) by { assert People(Mem()) == [ME]; }
      assert Linked(Mem(), {});
      LinkedReadable(Mem(), {});
      assert FlatChans(Mem()) == [];
      assert FlatPeople(Mem()) == InitialNet(nickname, username, hostname).people;
    }

    // ------------------------------------------------------------------ freeing

    /** The list half of free_channel_nick. */
    method Detach(q: Ptr, ghost pending: set<Ptr>, ghost i: nat, ghost j: nat)
      requires ValidBut(pending) && q in link && q !in pending && At(Mem(), q, i, j)
      modifies this`chan, this`nick
      ensures ValidBut(pending + {q}) && Value() == RemoveMember(old(Value()), i, j)
      ensures Unlinkable(old(Mem()), q) && Mem() == Unlink(old(Mem()), q)
      ensures link[q].globalNick in nick
      ensures |nick[link[q].globalNick].channelNicks| < |old(nick[link[q].globalNick].channelNicks)|
    {
      hide Linked, Sound, Remove;
      ghost var h := Mem();
      var c, n := link[q].channel, link[q].globalNick;
      UnlinkLinked(h, pending, q);
      UnlinkIs(h, pending, q, i, j, info, away);
      chan := chan[c := chan[c].(nicks := Remove(chan[c].nicks, q))];
      nick := nick[n := nick[n].(channelNicks := Remove(nick[n].channelNicks, q))];
      assert Mem() == Unlink(h, q);
      FlatSound(Mem(), pending + {q}, info, away);
      RemoveIsShorter(h.nick[n].channelNicks, q);
    }

    /** g_free of a channel_nick that no list holds. */
    method FreeLink(q: Ptr, ghost pending: set<Ptr>)
      requires ValidBut(pending + {q}) && q !in pending
      modifies this`link
      ensures ValidBut(pending) && Value() == old(Value()) && Mem() == Release(old(Mem()), q)
    {
      hide Linked, Sound;
      ghost var h := Mem();
      ReleaseIs(h, pending + {q}, q, info, away);
      link := link - {q};
      assert Mem() == Release(h, q);
      assert pending + {q} - {q} == pending;
    }

    /** free_channel_nick. */
    method FreeChannelNick(q: Ptr, ghost pending: set<Ptr>, ghost i: nat, ghost j: nat)
      requires ValidBut(pending) && q in link && q !in pending && At(Mem(), q, i, j) && link[q].globalNick in nick
      modifies this`chan, this`nick, this`nicks, this`link
      ensures ValidBut(pending) && Value() == DropMember(old(Value()), i, j)
      ensures Unlinkable(old(Mem()), q) && chan == Unlink(old(Mem()), q).chan
      ensures old(nick[link[q].globalNick].data.query) ==> nicks == old(nicks) && nick == Unlink(old(Mem()), q).nick
      decreases |nick[link[q].globalNick].channelNicks|, 0
    {
      hide Linked, Sound, Flat, Unlink;
      var n := link[q].globalNick;
      ghost var k := NickPosition(Mem(), pending, n);
      WhoIsAt(Mem(), q, i, j, k, info, away);
      Detach(q, pending, i, j);
      UnlinkKeeps(old(Mem()), q);
      NoLinksNoChannels(Mem(), pending + {q}, n, k, info, away);
      DropMemberSplits(old(Value()), i, j);
      if |nick[n].channelNicks| == 0 && !nick[n].data.query {
        FreeNetworkNick(n, pending + {q}, k);
      }
      FreeLink(q, pending);
    }

    /** free_network_nick on somebody other than `me`. */
    method FreeNetworkNick(n: Ptr, ghost pending: set<Ptr>, ghost k: nat)
      requires ValidBut(pending) && n in nick && n in nicks && 1 <= k < |People(Mem())| && People(Mem())[k] == n
      modifies this`chan, this`nick, this`nicks, this`link
      ensures ValidBut(pending) && Value() == ForgetPerson(old(Value()), k)
      ensures channels == old(channels) && chan.Keys == old(chan.Keys)
      ensures old(nick[n].channelNicks == []) ==> chan == old(chan)
      decreases |nick[n].channelNicks|, 1
    {
      hide Linked, Sound, Flat, Unlink, LeaveAll, DropPerson;
      ghost var s0 := Value();
      SetQuery(n, pending, k);
      ForgetIgnores(s0, k, s0.people[k].(query := true));
      while nick[n].channelNicks != []
        invariant ValidBut(pending) && n in nick && nick[n].data.query && nicks == old(nicks)
        invariant n in nicks && People(Mem())[k] == n && k < |Value().people|
        invariant ForgetPerson(Value(), k) == ForgetPerson(s0, k)
        invariant |nick[n].channelNicks| <= |old(nick[n].channelNicks)|
        invariant chan.Keys == old(chan.Keys)
        invariant old(nick[n].channelNicks == []) ==> chan == old(chan)
        decreases |nick[n].channelNicks|
      {
        var q := nick[n].channelNicks[0];
        ghost var h, s := Mem(), Value();
        LinkOfNick(h, pending, n, q);
        ghost var i, j := Place(h, pending, q);
        ghost var k' := NickPosition(h, pending, n);
        WhoIsAt(h, q, i, j, k, info, away);
        DropMemberSplits(s, i, j);
        LeaveAllAfter(s, i, j, k);
        ForgetIsLeave(s, RemoveMember(s, i, j), k);
        FreeChannelNick(q, pending, i, j);
        UnlinkCells(h, q);
      }
      NoLinksNoChannels(Mem(), pending, n, k, info, away);
      LeaveAllDone(Value(), k);
      ReleaseNick(n, pending, k);
    }

    /** nn->query = 1. */
    method SetQuery(n: Ptr, ghost pending: set<Ptr>, ghost k: nat)
      requires ValidBut(pending) && n in nick && k < |People(Mem())| && People(Mem())[k] == n
      modifies this`nick
      ensures ValidBut(pending) && k < |old(Value()).people|
      ensures Value() == WithPerson(old(Value()), k, old(Value()).people[k].(query := true))
      ensures nick == old(nick)[n := old(nick)[n].(data := old(nick)[n].data.(query := true))]
    {
      hide Linked, Sound;
      ghost var h := Mem();
      PutNickIs(h, pending, n, nick[n].data.(query := true), k, info, away);
      nick := nick[n := nick[n].(data := nick[n].data.(query := true))];
      assert Mem() == PutNick(h, n, h.nick[n].data.(query := true));
      FlatSound(Mem(), pending, info, away);
    }

    method ReleaseNick(n: Ptr, ghost pending: set<Ptr>, ghost k: nat)
      requires ValidBut(pending) && n in nick && n in nicks && nick[n].channelNicks == []
      requires 1 <= k < |People(Mem())| && People(Mem())[k] == n && k < |Value().people| && !OnAny(Value(), k)
      modifies this`nick, this`nicks
      ensures ValidBut(pending) && Value() == DropPerson(old(Value()), k)
    {
      hide Linked, Sound, Remove;
      ghost var h := Mem();
      DropNickIs(h, pending, n, k, info, away);
      nicks := Remove(nicks, n);
      nick := nick - {n};
      assert Mem() == DropNickCell(h, n);
      FlatSound(Mem(), pending, info, away);
    }

    /** free_names. */
    method FreeNames(c: Ptr, ghost i: nat)
      requires Valid() && i < |channels| && channels[i] == c && c in chan && i < |Value().channels|
      modifies this`chan, this`nick, this`nicks, this`link
      ensures Valid() && i < |old(Value()).channels| && Value() == ClearMembers(old(Value()), i)
      ensures chan.Keys == old(chan.Keys) && chan[c].nicks == [] && chan[c].data == old(chan[c].data)
    {
      hide Linked, Sound, Flat, Unlink, DropMember;
      ghost var s0 := Value();
      while chan[c].nicks != []
        invariant Valid() && chan.Keys == old(chan.Keys) && i < |Value().channels|
        invariant chan[c].data == old(chan[c].data)
        invariant ClearMembers(Value(), i) == ClearMembers(s0, i)
        decreases |chan[c].nicks|
      {
        var q := chan[c].nicks[0];
        ghost var h := Mem();
        LinkOfChan(h, {}, c, q);
        MembersOf(h, i, info, away);
        FreeChannelNick(q, {}, i, 0);
        UnlinkChan(h, q, 0);
      }
      MembersOf(Mem(), i, info, away);
    }

    /** free_channel_state. */
    method FreeChannelState(c: Ptr, ghost i: nat)
      requires Valid() && i < |channels| && channels[i] == c && c in chan && i < |Value().channels|
      modifies this`channels, this`chan, this`nick, this`nicks, this`link
      ensures Valid() && i < |old(Value()).channels| && Value() == DropChan(old(Value()), i)
    {
      hide Linked, Sound, Remove, ClearMembers;
      FreeNames(c, i);
      ghost var h := Mem();
      DropChanIs(h, c, i, info, away);
      channels := Remove(channels, c);
      chan := chan - {c};
      assert Mem() == DropChanCell(h, c);
      FlatSound(Mem(), {}, info, away);
    }

    // -------------------------------------------------------------------- lookup

    /** find_channel. */
    method FindChannel(name: string) returns (c: Option<Ptr>, ghost i: nat)
      requires Valid()
      ensures i == FindChan(Value(), name) <= |channels| == |Value().channels|
      ensures c.None? <==> i == |channels|
      ensures c.Some? ==> c.value == channels[i] && c.value in chan && chan[c.value].data == Value().channels[i].data
    {
      hide Linked, Sound;
      ghost var names := ChanNames(Value().channels);
      var x := 0;
      while x < |channels|
        invariant x <= |channels| == |names|
        invariant forall y :: 0 <= y < x ==> !Same(info.casemapping, names[y], name)
      {
        if Eq(info, chan[channels[x]].data.name, name) {
          FirstMatchIs(info.casemapping, names, name, x);
          return Some(channels[x]), x;
        }
        x := x + 1;
      }
      FirstMatchIs(info.casemapping, names, name, x);
      return None, x;
    }

    /** find_network_nick. */
    method FindNetworkNick(name: string) returns (n: Option<Ptr>, ghost k: nat)
      requires Valid()
      ensures k == FindPerson(Value(), name) <= |People(Mem())| == |Value().people|
      ensures n.None? <==> k == |People(Mem())|
      ensures n.Some? ==> n.value == People(Mem())[k] && n.value in nick && nick[n.value].data == Value().people[k]
    {
      hide Linked, Sound;
      ghost var names := PeopleNames(Value().people);
      assert People(Mem())[0] == ME;
      if Eq(info, nick[ME].data.nick, name) {
        FirstMatchIs(info.casemapping, names, name, 0);
        return Some(ME), 0;
      }
      var x := 0;
      while x < |nicks|
        invariant x <= |nicks| == |names| - 1
        invariant forall y :: 0 <= y < x + 1 ==> !Same(info.casemapping, names[y], name)
      {
        assert People(Mem())[x + 1] == nicks[x];
        if Eq(info, nick[nicks[x]].data.nick, name) {
          FirstMatchIs(info.casemapping, names, name, x + 1);
          return Some(nicks[x]), x + 1;
        }
        x := x + 1;
      }
      FirstMatchIs(info.casemapping, names, name, x + 1);
      return None, x + 1;
    }

    /** find_channel_nick. */
    method FindChannelNick(c: Ptr, name: string, ghost i: nat) returns (q: Option<Ptr>, ghost j: nat)
      requires Valid() && i < |channels| && channels[i] == c && c in chan && i < |Value().channels|
      ensures j == FindMember(Value(), i, name) <= |chan[c].nicks| == |Value().channels[i].members|
      ensures q.None? <==> j == |chan[c].nicks|
      ensures q.Some? ==> q.value == chan[c].nicks[j] && At(Mem(), q.value, i, j) && link[q.value].globalNick in nick
    {
      hide Linked, Flat;
      var realname := StripPrefix(info, name);
      ghost var s := Value();
      ghost var names := MemberNames(s.people, s.channels[i].members);
      MembersOf(Mem(), i, info, away);
      hide Sound;
      var x := 0;
      while x < |chan[c].nicks|
        invariant x <= |chan[c].nicks| == |names|
        invariant forall y :: 0 <= y < x ==> !Same(info.casemapping, names[y], realname)
      {
        var l := chan[c].nicks[x];
        LinkOfChan(Mem(), {}, c, l);
        MemberNameAt(Mem(), i, x, info, away);
        if Eq(info, nick[link[l].globalNick].data.nick, realname) {
          FirstMatchIs(info.casemapping, names, realname, x);
          return Some(l), x;
        }
        x := x + 1;
      }
      FirstMatchIs(info.casemapping, names, realname, x);
      return None, x;
    }

    // ------------------------------------------------------------------ updating

    method SetNickData(n: Ptr, d: Nick, ghost k: nat)
      requires Valid() && n in nick && k < |People(Mem())| && People(Mem())[k] == n && (k == 0 ==> d.query)
      modifies this`nick
      ensures Valid() && k < |old(Value()).people| && Value() == WithPerson(old(Value()), k, d)
    {
      hide Linked, Sound;
      ghost var h := Mem();
      ghost var k' := NickPosition(h, {}, n);
      PutNickIs(h, {}, n, d, k, info, away);
      nick := nick[n := nick[n].(data := d)];
      assert Mem() == PutNick(h, n, d);
      FlatSound(Mem(), {}, info, away);
    }

    method SetChanData(c: Ptr, d: ChanData, ghost i: nat)
      requires Valid() && i < |channels| && channels[i] == c && c in chan
      modifies this`chan
      ensures Valid() && i < |old(Value()).channels| && Value() == WithChan(old(Value()), i, d)
      ensures chan == old(chan)[c := old(chan)[c].(data := d)]
    {
      hide Linked, Sound;
      ghost var h := Mem();
      PutChanIs(h, {}, c, d, i, info, away);
      chan := chan[c := chan[c].(data := d)];
      assert Mem() == PutChan(h, c, d);
      FlatSound(Mem(), {}, info, away);
    }

    method SetLink(q: Ptr, modes: set<char>, lastUpdate: int, lastFlags: Option<string>, ghost i: nat, ghost j: nat)
      requires Valid() && At(Mem(), q, i, j)
      modifies this`link
      ensures Valid() && i < |old(Value()).channels| && j < |old(Value()).channels[i].members|
      ensures var ms := old(Value()).channels[i].members;
              Value() == WithMembers(old(Value()), i,
                ms[j := ms[j].(modes := modes, lastUpdate := lastUpdate, lastFlags := lastFlags)])
    {
      hide Linked, Sound;
      ghost var h := Mem();
      PutLinkIs(h, q, modes, lastUpdate, lastFlags, i, j, info, away);
      link := link[q := link[q].(modes := modes, lastUpdate := lastUpdate, lastFlags := lastFlags)];
      assert Mem() == PutLink(h, q, modes, lastUpdate, lastFlags);
      FlatSound(Mem(), {}, info, away);
    }

    /** find_add_channel. */
    method FindAddChannel(name: string) returns (c: Ptr, ghost i: nat)
      requires Valid()
      modifies this`channels, this`chan, this`next
      ensures Valid() && i == FindChan(old(Value()), name) && Value() == AddChan(old(Value()), name)
      ensures i < |channels| == |Value().channels| && channels[i] == c && c in chan
    {
      hide Linked, Sound;
      var found;
      found, i := FindChannel(name);
      if found.Some? { return found.value, i; }
      ghost var h := Mem();
      NewChanIs(h, name, info, away);
      c := next;
      channels, chan, next := channels + [c], chan[c := ChanCell(NewChan(name), [])], next + 1;
      assert Mem() == NewChanCell(h, name);
      FlatSound(Mem(), {}, info, away);
    }

    /** find_add_network_nick. */
    method FindAddNetworkNick(name: string) returns (n: Ptr, ghost k: nat)
      requires Valid()
      modifies this`nicks, this`nick, this`next
      ensures Valid() && k == FindPerson(old(Value()), name) && Value() == AddPerson(old(Value()), name)
      ensures k < |People(Mem())| == |Value().people| && People(Mem())[k] == n && n in nick
      ensures nick[n].data == Value().people[k]
    {
      hide Linked, Sound;
      var found;
      found, k := FindNetworkNick(name);
      if found.Some? { return found.value, k; }
      ghost var h := Mem();
      NewNickIs(h, name, info, away);
      n := next;
      nicks, nick, next := nicks + [n], nick[n := NickCell(NewNick(name), [])], next + 1;
      assert Mem() == NewNickCell(h, name);
      assert People(Mem()) == People(h) + [n];
      FlatSound(Mem(), {}, info, away);
    }

    /** find_add_channel_nick. */
    method FindAddChannelNick(c: Ptr, name: string, ghost i: nat) returns (q: Ptr, ghost j: nat)
      requires Valid() && i < |channels| && channels[i] == c && c in chan && i < |Value().channels|
      requires OnePrefix(info, name)
      modifies this`nicks, this`nick, this`next, this`chan, this`link
      ensures Valid() && i < |old(Value()).channels| && Value() == AddMember(old(Value()), i, name)
      ensures chan.Keys == old(chan.Keys) && channels == old(channels)
      ensures j == FindMember(old(Value()), i, StripPrefix(info, name)) && At(Mem(), q, i, j)
      ensures link[q].globalNick in nick
    {
      hide Linked, Sound, Flat;
      MembersOf(Mem(), i, info, away);
      var realname := StripPrefix(info, name);
      var found;
      found, j := FindChannelNick(c, realname, i);
      if found.Some? { return found.value, j; }
      NotAMember(Value(), i, realname);
      var n, k := FindAddNetworkNick(realname);
      q := AppendLink(c, n, PrefixMode(info, name), i, k);
    }

    method AppendLink(c: Ptr, n: Ptr, modes: set<char>, ghost i: nat, ghost k: nat) returns (q: Ptr)
      requires Valid() && i < |channels| && channels[i] == c && c in chan && i < |Value().channels|
      requires n in nick && k < |People(Mem())| && People(Mem())[k] == n
      requires forall j :: 0 <= j < |Value().channels[i].members| ==> Value().channels[i].members[j].who != k
      modifies this`nick, this`next, this`chan, this`link
      ensures Valid() && i < |old(Value()).channels|
      ensures Value() == WithMembers(old(Value()), i, old(Value()).channels[i].members + [Member(k, modes, 0, None)])
      ensures chan.Keys == old(chan.Keys)
      ensures At(Mem(), q, i, |old(Value()).channels[i].members|) && link[q].globalNick in nick
    {
      hide Linked, Sound;
      ghost var h := Mem();
      LinkedFacts(h, {});
      NotLinkedYet(h, c, i, n, k, info, away);
      NewLinkIs(h, c, n, modes, i, k, info, away);
      q := next;
      link := link[q := LinkCell(modes, c, n, 0, None)];
      chan := chan[c := chan[c].(nicks := chan[c].nicks + [q])];
      nick := nick[n := nick[n].(channelNicks := nick[n].channelNicks + [q])];
      next := next + 1;
      assert Mem() == NewLinkCell(h, c, n, modes);
      FlatSound(Mem(), {}, info, away);
    }

    // ------------------------------------------------------------------ handlers

    /** The loop body of handle_join. */
    method Join(name: string, origin: string)
      requires Valid() && '!' in origin && OnePrefix(info, NickPart(origin))
      modifies this
      ensures Valid() && info == old(info) && old(Value()).info == old(info)
      ensures Value() == JoinOne(old(Value()), name, origin)
    {
      hide Linked, Flat, SetHostmask;
      InfoOf(Mem(), info, away);
      var c, i := FindAddChannel(name);
      InfoOf(Mem(), info, away);
      var q, j := FindAddChannelNick(c, NickPart(origin), i);
      var n := link[q].globalNick;
      ghost var k := NickPosition(Mem(), {}, n);
      WhoIsAt(Mem(), q, i, j, k, info, away);
      SetHostmaskKeepsQuery(nick[n].data, origin);
      SetNickData(n, SetHostmask(nick[n].data, origin), k);
    }

    /** The loop of handle_join. */
    method JoinEach(names: seq<string>, origin: string)
      requires Valid() && '!' in origin && OnePrefix(info, NickPart(origin))
      modifies this
      ensures Valid() && old(Value()).info == old(info) && Value() == JoinAll(old(Value()), names, origin)
    {
      hide Linked, Sound, Flat, JoinOne, OnePrefix;
      InfoOf(Mem(), info, away);
      ghost var s0 := Value();
      var x := 0;
      while x < |names|
        invariant x <= |names| && Valid() && info == old(info) && Value().info == old(info)
        invariant JoinAll(Value(), names[x..], origin) == JoinAll(s0, names, origin)
      {
        assert names[x..][1..] == names[x + 1..];
        Join(names[x], origin);
        InfoOf(Mem(), info, away);
        x := x + 1;
      }
    }

    /** handle_join. */
    method HandleJoin(l: Line)
      requires Valid() && Accepts(Value(), l) && CommandOf(l) == JOIN && Complete(l)
      modifies this
      ensures Valid() && Value() == MemberStep(old(Value()), l, 0)
    {
      hide Linked, Sound, Flat, JoinAll, OnePrefix;
      InfoOf(Mem(), info, away);
      if l.origin.Some? { JoinEach(StrSplit(l.args[1], ','), l.origin.value); }
    }

    /** The loop body of handle_part. */
    method Part(name: string, nickname: string)
      requires Valid()
      modifies this
      ensures Valid() && info == old(info) && Value() == PartOne(old(Value()), name, nickname)
    {
      hide Linked, Flat, DropMember, DropChan;
      var c, i := FindChannel(name);
      if c.None? { return; }
      var q, j := FindChannelNick(c.value, nickname, i);
      if q.Some? {
        LinkOfChan(Mem(), {}, c.value, q.value);
        FreeChannelNick(q.value, {}, i, j);
        UnlinkKeeps(old(Mem()), q.value);
        UnlinkChan(old(Mem()), q.value, j);
      }
      MeOf(Mem(), info, away);
      LinkedFacts(Mem(), {});
      if Eq(info, nickname, nick[ME].data.nick) {
        FreeChannelState(c.value, i);
      }
    }

    /** The loop of handle_part. */
    method PartEach(names: seq<string>, nickname: string)
      requires Valid()
      modifies this
      ensures Valid() && Value() == PartAll(old(Value()), names, nickname)
    {
      hide Linked, Sound, Flat, PartOne;
      ghost var s0 := Value();
      var x := 0;
      while x < |names|
        invariant x <= |names| && Valid()
        invariant PartAll(Value(), names[x..], nickname) == PartAll(s0, names, nickname)
      {
        assert names[x..][1..] == names[x + 1..];
        Part(names[x], nickname);
        x := x + 1;
      }
    }

    /** handle_part. */
    method HandlePart(l: Line)
      requires Valid() && Accepts(Value(), l) && CommandOf(l) == PART && Complete(l)
      modifies this
      ensures Valid() && Value() == MemberStep(old(Value()), l, 0)
    {
      hide Linked, Sound, Flat, PartAll;
      if l.origin.Some? { PartEach(StrSplit(l.args[1], ','), NickPart(l.origin.value)); }
    }

    /** The loop body of handle_kick. */
    method Kick(name: string, nickname: string)
      requires Valid()
      modifies this
      ensures Valid() && info == old(info) && Value() == KickOne(old(Value()), name, nickname)
    {
      hide Linked, Flat, DropMember, DropChan;
      var c, i := FindChannel(name);
      if c.None? { return; }
      var q, j := FindChannelNick(c.value, nickname, i);
      if q.None? { return; }
      LinkOfChan(Mem(), {}, c.value, q.value);
      FreeChannelNick(q.value, {}, i, j);
      UnlinkKeeps(old(Mem()), q.value);
      UnlinkChan(old(Mem()), q.value, j);
      MeOf(Mem(), info, away);
      LinkedFacts(Mem(), {});
      if Eq(info, nickname, nick[ME].data.nick) {
        FreeChannelState(c.value, i);
      }
    }

    /** The loop of handle_kick. */
    method KickEach(names: seq<string>, targets: seq<string>)
      requires Valid()
      modifies this
      ensures Valid() && Value() == KickAll(old(Value()), names, targets)
    {
      hide Linked, Sound, Flat, KickOne;
      ghost var s0 := Value();
      var x := 0;
      while x < |names| && x < |targets|
        invariant x <= |names| && x <= |targets| && Valid()
        invariant KickAll(Value(), names[x..], targets[x..]) == KickAll(s0, names, targets)
      {
        assert names[x..][1..] == names[x + 1..] && targets[x..][1..] == targets[x + 1..];
        Kick(names[x], targets[x]);
        x := x + 1;
      }
    }

    /** handle_kick. */
    method HandleKick(l: Line)
      requires Valid() && Accepts(Value(), l) && CommandOf(l) == KICK && Complete(l)
      modifies this
      ensures Valid() && Value() == MemberStep(old(Value()), l, 0)
    {
      hide Linked, Sound, Flat, KickAll;
      if l.origin.Some? { KickEach(StrSplit(l.args[1], ','), StrSplit(l.args[2], ',')); }
    }

    /** handle_quit. */
    method HandleQuit(l: Line)
      requires Valid() && Accepts(Value(), l) && CommandOf(l) == QUIT && Complete(l)
      modifies this
      ensures Valid() && Value() == MemberStep(old(Value()), l, 0)
    {
      hide Linked, Sound, Flat;
      if l.origin.None? { return; }
      var n, k := FindNetworkNick(NickPart(l.origin.value));
      if n.None? { return; }
      ghost var k' := NickPosition(Mem(), {}, n.value);
      if n.value == ME {
        LeaveChannels();
      } else {
        FreeNetworkNick(n.value, {}, k);
      }
    }

    /** The branch of handle_quit for the user's own nick. */
    method LeaveChannels()
      requires Valid()
      modifies this`chan, this`nick, this`nicks, this`link
      ensures Valid() && Value() == LeaveAll(old(Value()), 0)
    {
      hide Linked, Flat, Unlink, LeaveAll, DropMember, RemoveMember;
      ghost var s0 := Value();
      LinkedFacts(Mem(), {});
      while nick[ME].channelNicks != []
        invariant Valid() && ME in nick && nick[ME].data.query && NoDup(People(Mem()))
        invariant LeaveAll(Value(), 0) == LeaveAll(s0, 0)
        decreases |nick[ME].channelNicks|
      {
        var q := nick[ME].channelNicks[0];
        ghost var h, s := Mem(), Value();
        LinkOfNick(h, {}, ME, q);
        ghost var i, j := Place(h, {}, q);
        WhoIsAt(h, q, i, j, 0, info, away);
        DropMemberSplits(s, i, j);
        LeaveAllAfter(s, i, j, 0);
        FreeChannelNick(q, {}, i, j);
        UnlinkCells(h, q);
        LinkedFacts(Mem(), {});
      }
      NoLinksNoChannels(Mem(), {}, ME, 0, info, away);
      LeaveAllDone(Value(), 0);
    }

    /** The first half of handle_namreply: the first reply of a series empties the channel. */
    method StartNames(c: Ptr, mode: string, ghost i: nat)
      requires Valid() && i < |channels| && channels[i] == c && c in chan && i < |Value().channels|
      modifies this
      ensures Valid() && info == old(info) && channels == old(channels) && c in chan
      ensures i < |old(Value()).channels| && Value() == OpenNames(old(Value()), i, mode)
    {
      hide Linked, Sound, Flat, ClearMembers;
      MembersOf(Mem(), i, info, away);
      SetChanData(c, chan[c].data.(mode := if mode == "" then '\0' else mode[0]), i);
      MembersOf(Mem(), i, info, away);
      if !chan[c].data.namreplyStarted {
        FreeNames(c, i);
        MembersOf(Mem(), i, info, away);
        SetChanData(c, chan[c].data.(namreplyStarted := true), i);
      }
    }

    /** The second half: everybody named is added. */
    method AddEachName(c: Ptr, names: seq<string>, ghost i: nat)
      requires Valid() && i < |channels| && channels[i] == c && c in chan && i < |Value().channels|
      requires AllOnePrefix(info, names)
      modifies this
      ensures Valid() && i < |old(Value()).channels| && old(Value()).info == old(info)
      ensures Value() == AddNames(old(Value()), i, names)
    {
      hide Linked, Sound, Flat, AddMember, OnePrefix;
      ghost var s := Value();
      MembersOf(Mem(), i, info, away);
      var x := 0;
      while x < |names|
        invariant x <= |names| && Valid() && info == old(info) && Value().info == old(info)
        invariant i < |channels| && channels[i] == c && c in chan && i < |Value().channels|
        invariant AddNames(Value(), i, names[x..]) == AddNames(s, i, names)
      {
        assert names[x..][1..] == names[x + 1..];
        if names[x] != "" {
          var q, j := FindAddChannelNick(c, names[x], i);
          MembersOf(Mem(), i, info, away);
        }
        x := x + 1;
      }
    }

    /** handle_namreply. */
    method HandleNames(l: Line)
      requires Valid() && Accepts(Value(), l) && CommandOf(l) == N353 && Complete(l)
      modifies this
      ensures Valid() && Value() == MemberStep(old(Value()), l, 0)
    {
      hide Linked, Sound, Flat, OpenNames, AddNames, OnePrefix;
      InfoOf(Mem(), info, away);
      var c, i := FindChannel(l.args[3]);
      if c.None? { return; }
      var names := StrSplit(l.args[4], ' ');
      StartNames(c.value, l.args[2], i);
      MembersOf(Mem(), i, info, away);
      AddEachName(c.value, names, i);
    }

    /** handle_whoreply. */
    method HandleWho(l: Line, now: int)
      requires Valid() && Accepts(Value(), l) && CommandOf(l) == N352 && Complete(l)
      modifies this
      ensures Valid() && Value() == MemberStep(old(Value()), l, now)
    {
      hide Linked, Sound, Flat, WhoNick;
      InfoOf(Mem(), info, away);
      var a := l.args;
      var n, k := FindAddNetworkNick(a[6]);
      WhoNickKeepsQuery(nick[n].data, a);
      MeOf(Mem(), info, away);
      LinkedFacts(Mem(), {});
      SetNickData(n, WhoNick(nick[n].data, a), k);
      var c, i := FindChannel(a[2]);
      if c.None? { return; }
      var q, j := FindChannelNick(c.value, a[6], i);
      if q.None? { return; }
      LinkAt(Mem(), q.value, i, j, info, away);
      SetLink(q.value, link[q.value].modes, now, Some(a[7]), i, j);
    }

    // ---------------------------------------------------------------------- MODE

    /** The member case of channel_state_change_mode. */
    method ChangeNickMode(c: Ptr, on: bool, m: char, arg: Option<string>, ghost i: nat) returns (taken: Option<nat>)
      requires Valid() && i < |channels| && channels[i] == c && c in chan && i < |Value().channels|
      modifies this`link
      ensures Valid() && i < |old(Value()).channels|
      ensures Change(Value(), taken) == ChangeMemberMode(old(Value()), i, on, m, arg)
    {
      hide Linked, Sound, Flat;
      if arg.None? { return None; }
      var q, j := FindChannelNick(c, arg.value, i);
      if q.None? { return None; }
      LinkAt(Mem(), q.value, i, j, info, away);
      var l := link[q.value];
      SetLink(q.value, ToggleMode(l.modes, on, m), l.lastUpdate, l.lastFlags, i, j);
      return Some(1);
    }

    /** channel_state_change_mode. */
    method ChangeChannelMode(c: Ptr, setter: Option<string>, on: bool, m: char, arg: Option<string>, now: int,
                             ghost i: nat)
      returns (taken: Option<nat>)
      requires Valid() && i < |channels| && channels[i] == c && c in chan && i < |Value().channels| && ChanmodesOk(info)
      modifies this`chan, this`link
      ensures Valid() && i < |old(Value()).channels| && old(Value()).info == old(info) && c in chan
      ensures Change(Value(), taken) == ChangeMode(old(Value()), setter, i, on, m, arg, now)
    {
      hide Linked, Sound, Flat, ChangeMemberMode, WithChan;
      MembersOf(Mem(), i, info, away);
      var kind, d := ChanmodeType(info, m), chan[c].data;
      if kind == ListMode {
        if arg.None? { return None; }
        if m in d.present {
          if on {
            SetChanData(c, d.(lists := d.lists[m := Entries(d, m) + [ListEntry(arg.value, setter, now)]]), i);
          } else {
            SetChanData(c, d.(lists := d.lists[m := RemoveEntry(Entries(d, m), arg.value)]), i);
          }
        }
        return Some(1);
      } else if kind == SettingMode || kind == OptSettingMode {
        if on {
          if arg.None? { return None; }
          SetChanData(c, d.(options := d.options[m := arg.value]), i);
          return Some(1);
        } else {
          SetChanData(c, d.(options := d.options - {m}), i);
          return Some(0);
        }
      } else if IsPrefixMode(info, m) {
        taken := ChangeNickMode(c, on, m, arg, i);
      } else if kind == BoolMode {
        SetChanData(c, d.(modes := ToggleMode(d.modes, on, m)), i);
        return Some(0);
      } else {
        return Some(1);
      }
    }

    /** The channel half of handle_mode: the argument cursor never leaves the arguments. */
    method ChangeModes(c: Ptr, setter: Option<string>, modes: string, args: seq<string>, now: int, ghost i: nat)
      returns (cursor: nat)
      requires Valid() && i < |channels| && channels[i] == c && c in chan && i < |Value().channels| && ChanmodesOk(info)
      requires |args| >= 3
      modifies this`chan, this`link
      ensures Valid() && i < |old(Value()).channels| && old(Value()).info == old(info) && 3 <= cursor <= |args|
      ensures Value() == ModeLoop(old(Value()), setter, i, modes, args, 3, true, now)
    {
      hide Linked, Sound, Flat, ChangeMode, ChanmodesOk, Readable;
      ghost var s := Value();
      MembersOf(Mem(), i, info, away);
      var x, on := 0, true;
      cursor := 3;
      while x < |modes|
        invariant x <= |modes| && Valid() && c in chan && i < |Value().channels| && 3 <= cursor <= |args|
        invariant Value().info == info
        invariant ModeLoop(Value(), setter, i, modes[x..], args, cursor, on, now) ==
                  ModeLoop(s, setter, i, modes, args, 3, true, now)
      {
        assert modes[x..][1..] == modes[x + 1..];
        if modes[x] == '+' { on := true; }
        else if modes[x] == '-' { on := false; }
        else {
          var taken := ChangeChannelMode(c, setter, on, modes[x], Nth(args, cursor), now, i);
          MembersOf(Mem(), i, info, away);
          if taken.None? { return; }
          if cursor < |args| { cursor := cursor + taken.value; }
        }
        x := x + 1;
      }
    }

    /** handle_mode. */
    method HandleMode(l: Line, now: int)
      requires Valid() && Accepts(Value(), l) && CommandOf(l) == MODE && Complete(l)
      modifies this
      ensures Valid() && Value() == ModeLine(old(Value()), l, now)
    {
      hide Linked, Sound, Flat, ModeLoop, WithPerson, ChanmodesOk, IsChannelName;
      InfoOf(Mem(), info, away);
      if IsChannelName(info, l.args[1]) {
        var c, i := FindChannel(l.args[1]);
        if c.None? { return; }
        var b, k := FindNetworkNick(NickPart(l.origin.value));
        var setter := if b.Some? then Some(nick[b.value].data.nick) else None;
        var cursor := ChangeModes(c.value, setter, l.args[2], l.args, now, i);
        assert cursor <= |l.args|;
      } else {
        var n, k := FindAddNetworkNick(l.args[1]);
        var modes := EachUserMode(nick[n].data.modes, l.args[2]);
        MeOf(Mem(), info, away);
        LinkedFacts(Mem(), {});
        SetNickData(n, nick[n].data.(modes := modes), k);
      }
    }

    // ------------------------------------------------------------- small handlers

    /** The handlers that look up one channel and write its fields. */
    method HandleData(l: Line, now: int)
      requires Valid() && Accepts(Value(), l) && IsDataLine(CommandOf(l)) && Complete(l)
      modifies this
      ensures Valid() && Value() == DataStep(old(Value()), l, now)
    {
      hide Linked, Sound, Flat, DataChange, WithChan;
      if CommandOf(l) == TOPIC && l.origin.None? { return; }
      var c, i := FindChannel(DataTarget(l));
      if c.None? { return; }
      SetChanData(c.value, DataChange(chan[c.value].data, l, now), i);
    }

    /** The nick half of handle_nick. */
    method Rename(name: string, to: string)
      requires Valid()
      modifies this
      ensures Valid() && Value() == RenameStep(old(Value()), name, to)
    {
      hide Linked, Sound, Flat, WithPerson;
      var n, k := FindAddNetworkNick(name);
      MeOf(Mem(), info, away);
      LinkedFacts(Mem(), {});
      SetNickData(n, SetNick(nick[n].data, to), k);
    }

    /** The nick half of handle_privmsg. */
    method OpenQuery(name: string)
      requires Valid()
      modifies this
      ensures Valid() && Value() == QueryStep(old(Value()), name)
    {
      hide Linked, Sound, Flat, WithPerson;
      var n, k := FindAddNetworkNick(name);
      SetNickData(n, nick[n].data.(query := true), k);
    }

    /** handle_001 and handle_umodeis. */
    method ChangeMe(d: Nick)
      requires Valid() && d.query
      modifies this
      ensures Valid() && |old(Value()).people| >= 1 && Value() == WithPerson(old(Value()), 0, d)
    {
      hide Linked, Sound, Flat, WithPerson;
      MeOf(Mem(), info, away);
      assert People(Mem())[0] == ME;
      SetNickData(ME, d, 0);
    }

    /** One entry of a USERHOST reply. */
    method UserHostEntry(entry: string)
      requires Valid() && UserHostOk(Value(), entry)
      modifies this
      ensures Valid() && Value() == UserHost(old(Value()), entry)
    {
      hide Linked, Sound, Flat, WithPerson, SetHostmask;
      var e := IndexOf(entry, '=');
      if e == |entry| { return; }
      var name := entry[..e];
      var n, k := FindAddNetworkNick(name);
      var mask := name + "!" + entry[e + 2..];
      assert mask[e] == '!';
      SetHostmaskKeepsQuery(nick[n].data, mask);
      MeOf(Mem(), info, away);
      LinkedFacts(Mem(), {});
      SetNickData(n, SetHostmask(nick[n].data, mask), k);
    }

    /** handle_302. */
    method HandleUserHosts(entries: seq<string>)
      requires Valid() && UserHostsOk(Value(), entries)
      modifies this
      ensures Valid() && Value() == UserHosts(old(Value()), entries)
    {
      hide Linked, Sound, Flat, UserHost, UserHostOk;
      ghost var s := Value();
      var x := 0;
      while x < |entries|
        invariant x <= |entries| && Valid()
        invariant UserHostsOk(Value(), entries[x..]) && UserHosts(Value(), entries[x..]) == UserHosts(s, entries)
      {
        assert entries[x..][1..] == entries[x + 1..];
        UserHostEntry(entries[x]);
        x := x + 1;
      }
    }

    /** handle_004, and what handle_005 does with one token. */
    method SetInfo(i: Info)
      requires Valid()
      modifies this`info
      ensures Valid() && info == i && Value() == old(Value()).(info := i)
    {
      hide Linked, Sound;
      info := i;
      FlatSound(Mem(), {}, info, away);
    }

    /** handle_nowaway and handle_unaway. */
    method SetAway(a: bool)
      requires Valid()
      modifies this`away
      ensures Valid() && Value() == old(Value()).(away := a)
    {
      hide Linked, Sound;
      away := a;
      FlatSound(Mem(), {}, info, away);
    }

    /** handle_005. */
    method HandleSupport(tokens: seq<string>)
      requires Valid() && forall k :: 0 <= k < |tokens| ==> TokenOk(tokens[k])
      modifies this`info
      ensures Valid() && Value() == old(Value()).(info := ParseTokens(old(info), tokens))
    {
      hide Linked, Sound, Flat, ParseToken, TokenOk;
      MeOf(Mem(), info, away);
      var x := 0;
      while x < |tokens|
        invariant x <= |tokens| && Valid() && Value() == old(Value()).(info := info)
        invariant ParseTokens(info, tokens[x..]) == ParseTokens(old(info), tokens)
      {
        assert tokens[x..][1..] == tokens[x + 1..];
        SetInfo(ParseToken(info, tokens[x]));
        x := x + 1;
      }
    }

    // ------------------------------------------------------------------ dispatch

    /** Lines about the server, the user's own nick or the away flag. */
    method HandleStatus(l: Line)
      requires Valid() && Complete(l) && IsStatusLine(CommandOf(l)) && SupportOk(l)
      modifies this
      ensures Valid() && |old(Value()).people| >= 1 && Value() == StatusStep(old(Value()), l)
    {
      hide Linked, Sound, Flat, WithPerson, ParseTokens, StringToModes, CommandNamed;
      MeOf(Mem(), info, away);
      LinkedFacts(Mem(), {});
      var a := l.args;
      match CommandOf(l) {
        case N001 => ChangeMe(nick[ME].data.(nick := a[1]));
        case N004 => SetInfo(info.(userModes := Some(a[4]), channelModes := Some(a[5]), server := Some(a[2])));
        case N005 => HandleSupport(a[2..|a| - 1]);
        case N221 => ChangeMe(nick[ME].data.(modes := StringToModes(a[1])));
        case N306 => SetAway(true);
        case N305 => SetAway(false);
      }
    }

    method HandleOther(l: Line, now: int)
      requires Valid() && Accepts(Value(), l) && Complete(l) && !IsMemberLine(CommandOf(l)) && !IsDataLine(CommandOf(l))
      modifies this
      ensures Valid() && Value() == OtherStep(old(Value()), l, now)
    {
      hide Linked, Sound, Flat, ModeLine, RenameStep, QueryStep, UserHosts, UserHostsOk, WithPerson, ParseTokens;
      hide StringToModes;
      hide CommandNamed;
      MeOf(Mem(), info, away);
      LinkedFacts(Mem(), {});
      if IsStatusLine(CommandOf(l)) {
        StatusIsOther(Value(), l, now);
        HandleStatus(l);
        return;
      }
      match CommandOf(l) {
        case NICK => if l.origin.Some? { Rename(NickPart(l.origin.value), l.args[1]); }
        case PRIVMSG =>
          if l.origin.Some? && Eq(info, l.args[1], nick[ME].data.nick) { OpenQuery(NickPart(l.origin.value)); }
        case MODE => HandleMode(l, now);
        case N302 => HandleUserHosts(StrSplit(Strip(l.args[2]), ' '));
        case N315 =>
        case OTHER =>
      }
    }

    /** state_handle_data. */
    method Handle(l: Line, now: int)
      requires Valid() && Accepts(Value(), l)
      modifies this
      ensures Valid() && Value() == Step(old(Value()), l, now)
    {
      hide Linked, Sound, Flat, Accepts, DataStep, OtherStep, MemberStep;
      if !Complete(l) { return; }
      if IsDataLine(CommandOf(l)) { HandleData(l, now); }
      else if !IsMemberLine(CommandOf(l)) { HandleOther(l, now); }
      else {
        TimeOnlyInWho(Value(), l, now);
        match CommandOf(l) {
          case JOIN => HandleJoin(l);
          case PART => HandlePart(l);
          case KICK => HandleKick(l);
          case QUIT => HandleQuit(l);
          case N353 => HandleNames(l);
          case N352 => HandleWho(l, now);
        }
      }
    }

    /** Any run of lines keeps the graph linked and ends where the fold over the value ends. */
    method HandleAll(es: seq<Event>)
      requires Valid() && Accepted(Value(), es)
      modifies this
      ensures Valid() && Value() == Run(old(Value()), es)
    {
      hide Linked, Sound, Flat, Accepts, Step;
      ghost var s := Value();
      var x := 0;
      while x < |es|
        invariant x <= |es| && Valid() && Accepted(Value(), es[x..]) && Run(Value(), es[x..]) == Run(s, es)
      {
        assert es[x..][1..] == es[x + 1..];
        Handle(es[x].line, es[x].now);
        x := x + 1;
      }
    }
  }
}
