/** The pointer graph behind the network state. A pointer is an address; an object exists
    while its address is in the corresponding map, and freeing it takes the address out. A
    channel_nick is listed twice: in its channel's list and in its nick's list. */
module Graph {
  import opened Base
  import opened Info
  import opened State

  type Ptr = nat

  /** &st->me. */
  const ME: Ptr := 0

  /** struct irc_channel_state. */
  datatype ChanCell = ChanCell(data: ChanData, nicks: seq<Ptr>)

  /** struct network_nick. */
  datatype NickCell = NickCell(data: Nick, channelNicks: seq<Ptr>)

  /** struct channel_nick. */
  datatype LinkCell = LinkCell(modes: set<char>, channel: Ptr, globalNick: Ptr, lastUpdate: int,
                               lastFlags: Option<string>)

  /** The two lists of struct irc_network_state and everything allocated; addresses from
      `next` on are unused. */
  datatype Heap = Heap(channels: seq<Ptr>, nicks: seq<Ptr>,
                       chan: map<Ptr, ChanCell>, nick: map<Ptr, NickCell>, link: map<Ptr, LinkCell>, next: Ptr)

  function People(h: Heap): (r: seq<Ptr>) { [ME] + h.nicks }

  // ------------------------------------------------------------------ invariant

  /** The lists name exactly the allocated channels and nicks, once each. */
  ghost predicate Listed(h: Heap) {
    && NoDup(People(h)) && (forall p :: p in h.nick <==> p in People(h))
    && NoDup(h.channels) && (forall c :: c in h.chan <==> c in h.channels)
  }

  /** Every channel_nick hangs in its channel's list, which holds nothing else. */
  ghost predicate ChanLists(chan: map<Ptr, ChanCell>, link: map<Ptr, LinkCell>, pending: set<Ptr>) {
    && (forall q :: q in link && q !in pending ==> link[q].channel in chan && q in chan[link[q].channel].nicks)
    && (forall c :: c in chan ==> NoDup(chan[c].nicks))
    && (forall c, q :: c in chan && q in chan[c].nicks ==> q in link && q !in pending && link[q].channel == c)
  }

  /** Every channel_nick hangs in its nick's list, which holds nothing else. */
  ghost predicate NickLists(nick: map<Ptr, NickCell>, link: map<Ptr, LinkCell>, pending: set<Ptr>) {
    && (forall q :: q in link && q !in pending ==>
        link[q].globalNick in nick && q in nick[link[q].globalNick].channelNicks)
    && (forall n :: n in nick ==> NoDup(nick[n].channelNicks))
    && (forall n, q :: n in nick && q in nick[n].channelNicks ==> q in link && q !in pending && link[q].globalNick == n)
  }

  predicate SamePair(a: LinkCell, b: LinkCell) { a.channel == b.channel && a.globalNick == b.globalNick }

  /** Nobody is on a channel twice. */
  ghost predicate PairsUnique(link: map<Ptr, LinkCell>, pending: set<Ptr>) {
    forall q, r :: q in link && r in link && q !in pending && r !in pending && SamePair(link[q], link[r]) ==> q == r
  }

  ghost predicate Addresses(h: Heap) {
    && (forall p :: p in h.nick ==> p < h.next) && (forall c :: c in h.chan ==> c < h.next)
    && (forall q :: q in h.link ==> q < h.next)
  }

  /** The link invariant; `pending` are channel_nicks already taken out of both lists whose
      memory is about to be released. */
  ghost predicate Linked(h: Heap, pending: set<Ptr>) {
    && Listed(h) && Addresses(h)
    && ChanLists(h.chan, h.link, pending) && NickLists(h.nick, h.link, pending) && PairsUnique(h.link, pending)
    && (forall q :: q in pending ==> q in h.link)
    && h.nick[ME].data.query
  }

  /** What the link invariant says of a channel `c`, somebody `n` and a channel_nick `q`: the two
      lists agree, everything they reach is allocated and known, and a pair occurs once. */
  lemma LinkInvariant(h: Heap, c: Ptr, n: Ptr, q: Ptr)
    requires Linked(h, {}) && c in h.channels && n in People(h)
    ensures c in h.chan && n in h.nick
    ensures q in h.chan[c].nicks ==> q in h.link && h.link[q].channel == c && h.link[q].globalNick in People(h)
    ensures q in h.nick[n].channelNicks ==> q in h.link && h.link[q].globalNick == n && h.link[q].channel in h.channels
    ensures q in h.chan[c].nicks && h.link[q].globalNick == n <==> q in h.nick[n].channelNicks && h.link[q].channel == c
    ensures forall p :: p in h.chan[c].nicks && p in h.nick[n].channelNicks ==>
              (q in h.chan[c].nicks && q in h.nick[n].channelNicks ==> p == q)
  {
    assert q in h.chan[c].nicks ==> q in h.link;
    forall p | p in h.chan[c].nicks && p in h.nick[n].channelNicks && q in h.chan[c].nicks &&
        q in h.nick[n].channelNicks
      ensures p == q
    {
      assert SamePair(h.link[p], h.link[q]);
    }
  }

  // ------------------------------------------------------------------ flattening

  function Position(ps: seq<Ptr>, p: Ptr): (i: nat)
    requires p in ps
    ensures i < |ps| && ps[i] == p && p !in ps[..i]
  {
    if ps[0] == p then 0 else
      assert ps == [ps[0]] + ps[1..];
      var i := 1 + Position(ps[1..], p);
      assert ps[..i] == [ps[0]] + ps[1..][..i - 1];
      i
  }

  lemma PositionIs(ps: seq<Ptr>, p: Ptr, i: nat)
    requires i < |ps| && ps[i] == p && NoDup(ps)
    ensures Position(ps, p) == i
  {}

  /** g_list_remove. */
  function Remove(ps: seq<Ptr>, p: Ptr): (r: seq<Ptr>)
    requires p in ps
  {
    Without(ps, Position(ps, p))
  }

  lemma RemoveFacts(ps: seq<Ptr>, p: Ptr)
    requires p in ps && NoDup(ps)
    ensures NoDup(Remove(ps, p))
    ensures forall x :: x in Remove(ps, p) <==> x in ps && x != p
  {
    var i, r := Position(ps, p), Remove(ps, p);
    forall x | x in ps && x != p
      ensures x in r
    {
      var k :| 0 <= k < |ps| && ps[k] == x;
      assert r[if k < i then k else k - 1] == x;
    }
  }

  function MemberAt(people: seq<Ptr>, l: LinkCell): (m: Member)
    requires l.globalNick in people
  {
    Member(Position(people, l.globalNick), l.modes, l.lastUpdate, l.lastFlags)
  }

  /** Every entry is a channel_nick of somebody known. */
  predicate Resolves(h: Heap, qs: seq<Ptr>) {
    forall j :: 0 <= j < |qs| ==> qs[j] in h.link && h.link[qs[j]].globalNick in People(h)
  }

  function FlatMembers(h: Heap, qs: seq<Ptr>): (r: seq<Member>)
    requires Resolves(h, qs)
    ensures |r| == |qs| && forall j :: 0 <= j < |r| ==> r[j] == MemberAt(People(h), h.link[qs[j]])
  {
    seq(|qs|, j requires 0 <= j < |qs| => MemberAt(People(h), h.link[qs[j]]))
  }

  predicate Readable(h: Heap) {
    && (forall p :: p in People(h) ==> p in h.nick)
    && (forall i :: 0 <= i < |h.channels| ==> h.channels[i] in h.chan && Resolves(h, h.chan[h.channels[i]].nicks))
  }

  function FlatChans(h: Heap): (r: seq<Chan>)
    requires Readable(h)
    ensures |r| == |h.channels|
    ensures forall i :: 0 <= i < |r| ==>
              r[i] == Chan(h.chan[h.channels[i]].data, FlatMembers(h, h.chan[h.channels[i]].nicks))
  {
    seq(|h.channels|, i requires 0 <= i < |h.channels| =>
      Chan(h.chan[h.channels[i]].data, FlatMembers(h, h.chan[h.channels[i]].nicks)))
  }

  function FlatPeople(h: Heap): (r: seq<Nick>)
    requires Readable(h)
    ensures |r| == |People(h)| && forall i :: 0 <= i < |r| ==> r[i] == h.nick[People(h)[i]].data
  {
    seq(|People(h)|, i requires 0 <= i < |People(h)| => h.nick[People(h)[i]].data)
  }

  /** The value the graph stands for. */
  function Flat(h: Heap, info: Info, away: bool): (s: Net)
    requires Readable(h)
  {
    Net(FlatChans(h), FlatPeople(h), info, away)
  }

  lemma LinkedReadable(h: Heap, pending: set<Ptr>)
    requires Linked(h, pending)
    ensures Readable(h)
  {
    forall i | 0 <= i < |h.channels|
      ensures h.channels[i] in h.chan && Resolves(h, h.chan[h.channels[i]].nicks)
    {
      var c := h.channels[i];
      assert c in h.chan;
      forall j | 0 <= j < |h.chan[c].nicks|
        ensures h.chan[c].nicks[j] in h.link && h.link[h.chan[c].nicks[j]].globalNick in People(h)
      {
        assert h.chan[c].nicks[j] in h.chan[c].nicks;
      }
    }
  }

  /** The parts of the invariant that reading the graph needs. */
  lemma LinkedFacts(h: Heap, pending: set<Ptr>)
    requires Linked(h, pending)
    ensures Readable(h) && NoDup(h.channels) && NoDup(People(h)) && ME in h.nick && h.nick[ME].data.query
    ensures h.next !in h.link && h.next !in h.chan && h.next !in h.nick && h.next !in People(h)
  {
    LinkedReadable(h, pending);
    hide ChanLists, NickLists, PairsUnique;
    assert ME in People(h);
  }

  /** A linked graph flattens to a sound state. */
  lemma FlatSound(h: Heap, pending: set<Ptr>, info: Info, away: bool)
    requires Linked(h, pending) && Readable(h)
    ensures Sound(Flat(h, info, away))
  {
    var s := Flat(h, info, away);
    assert s.people[0] == h.nick[ME].data;
    forall i | 0 <= i < |s.channels|
      ensures SoundMembers(s.channels[i].members, |s.people|)
    {
      MembersSound(h, pending, h.channels[i]);
    }
  }

  lemma MembersSound(h: Heap, pending: set<Ptr>, c: Ptr)
    requires Linked(h, pending) && Readable(h) && c in h.chan && Resolves(h, h.chan[c].nicks)
    ensures SoundMembers(FlatMembers(h, h.chan[c].nicks), |People(h)|)
  {
    var qs := h.chan[c].nicks;
    var ms := FlatMembers(h, qs);
    forall i, j | 0 <= i < j < |ms|
      ensures ms[i].who != ms[j].who
    {
      assert qs[i] in qs && qs[j] in qs && qs[i] != qs[j];
      assert People(h)[ms[i].who] == h.link[qs[i]].globalNick && People(h)[ms[j].who] == h.link[qs[j]].globalNick;
    }
  }

  // -------------------------------------------------------- what does not change

  /** Two graphs with the same lists and the same ends of every channel_nick. */
  ghost predicate SameShape(h: Heap, r: Heap) {
    && h.channels == r.channels && h.nicks == r.nicks && h.next == r.next
    && h.chan.Keys == r.chan.Keys && (forall c :: c in h.chan ==> h.chan[c].nicks == r.chan[c].nicks)
    && h.nick.Keys == r.nick.Keys && (forall n :: n in h.nick ==> h.nick[n].channelNicks == r.nick[n].channelNicks)
    && h.link.Keys == r.link.Keys && (forall q :: q in h.link ==> SamePair(h.link[q], r.link[q]))
  }

  lemma SameShapeLists(h: Heap, r: Heap, pending: set<Ptr>)
    requires SameShape(h, r) && ChanLists(h.chan, h.link, pending) && NickLists(h.nick, h.link, pending)
    ensures ChanLists(r.chan, r.link, pending) && NickLists(r.nick, r.link, pending)
  {
    assert ChanLists(r.chan, r.link, pending) by { hide NickLists; }
    assert NickLists(r.nick, r.link, pending) by { hide ChanLists; }
  }

  lemma SameShapeLinked(h: Heap, r: Heap, pending: set<Ptr>)
    requires Linked(h, pending) && SameShape(h, r) && ME in r.nick && r.nick[ME].data.query
    ensures Linked(r, pending)
  {
    SameShapeLists(h, r, pending);
    assert PairsUnique(r.link, pending) by { hide ChanLists, NickLists; }
    hide ChanLists, NickLists, PairsUnique, Listed, Addresses;
    ListedSame(h, r);
    AddressesShrink(h, r);
  }

  lemma FlatMembersSame(h: Heap, r: Heap, qs: seq<Ptr>)
    requires Resolves(h, qs) && Resolves(r, qs) && People(h) == People(r)
    requires forall j :: 0 <= j < |qs| ==> h.link[qs[j]] == r.link[qs[j]]
    ensures FlatMembers(h, qs) == FlatMembers(r, qs)
  {}

  /** What happens to one channel's entry happens to nothing else. */
  lemma OneChan(h: Heap, r: Heap, i: nat, data: ChanData, ms: seq<Member>)
    requires Readable(h) && Readable(r) && People(h) == People(r) && h.channels == r.channels && NoDup(h.channels)
    requires i < |h.channels| && r.chan[h.channels[i]].data == data
    requires FlatMembers(r, r.chan[h.channels[i]].nicks) == ms
    requires forall x :: 0 <= x < |h.channels| && x != i ==>
               r.chan[h.channels[x]] == h.chan[h.channels[x]] &&
               FlatMembers(r, r.chan[h.channels[x]].nicks) == FlatMembers(h, h.chan[h.channels[x]].nicks)
    ensures FlatChans(r) == FlatChans(h)[i := Chan(data, ms)]
  {}

  // ------------------------------------------------------- changing one record

  function PutNick(h: Heap, n: Ptr, d: Nick): (r: Heap)
    requires n in h.nick
  {
    h.(nick := h.nick[n := h.nick[n].(data := d)])
  }

  lemma PutNickIs(h: Heap, pending: set<Ptr>, n: Ptr, d: Nick, k: nat, info: Info, away: bool)
    requires Linked(h, pending) && Readable(h) && k < |People(h)| && People(h)[k] == n && n in h.nick
    requires n == ME ==> d.query
    ensures var r := PutNick(h, n, d);
            Linked(r, pending) && Readable(r) && Flat(r, info, away) == WithPerson(Flat(h, info, away), k, d)
  {
    hide Linked;
    var r := PutNick(h, n, d);
    LinkedFacts(h, pending);
    SameShapeLinked(h, r, pending);
    LinkedFacts(r, pending);
    assert FlatPeople(r) == FlatPeople(h)[k := d];
    forall x | 0 <= x < |h.channels|
      ensures FlatMembers(r, r.chan[h.channels[x]].nicks) == FlatMembers(h, h.chan[h.channels[x]].nicks)
    {
      FlatMembersSame(h, r, h.chan[h.channels[x]].nicks);
    }
    assert FlatChans(r) == FlatChans(h);
  }

  function PutChan(h: Heap, c: Ptr, d: ChanData): (r: Heap)
    requires c in h.chan
  {
    h.(chan := h.chan[c := h.chan[c].(data := d)])
  }

  lemma PutChanIs(h: Heap, pending: set<Ptr>, c: Ptr, d: ChanData, i: nat, info: Info, away: bool)
    requires Linked(h, pending) && Readable(h) && i < |h.channels| && h.channels[i] == c && c in h.chan
    ensures var r := PutChan(h, c, d);
            Linked(r, pending) && Readable(r) && Flat(r, info, away) == WithChan(Flat(h, info, away), i, d)
  {
    hide Linked;
    var r := PutChan(h, c, d);
    LinkedFacts(h, pending);
    SameShapeLinked(h, r, pending);
    LinkedFacts(r, pending);
    assert FlatPeople(r) == FlatPeople(h);
    forall x | 0 <= x < |h.channels|
      ensures FlatMembers(r, r.chan[h.channels[x]].nicks) == FlatMembers(h, h.chan[h.channels[x]].nicks)
    {
      FlatMembersSame(h, r, h.chan[h.channels[x]].nicks);
    }
    OneChan(h, r, i, d, FlatMembers(h, h.chan[c].nicks));
  }

  function PutLink(h: Heap, q: Ptr, modes: set<char>, lastUpdate: int, lastFlags: Option<string>): (r: Heap)
    requires q in h.link
  {
    h.(link := h.link[q := h.link[q].(modes := modes, lastUpdate := lastUpdate, lastFlags := lastFlags)])
  }

  /** A channel_nick stands at one place of one channel only. */
  lemma OnePlace(h: Heap, pending: set<Ptr>, q: Ptr, i: nat, j: nat, x: nat, y: nat)
    requires Linked(h, pending) && Readable(h) && i < |h.channels| && x < |h.channels|
    requires j < |h.chan[h.channels[i]].nicks| && h.chan[h.channels[i]].nicks[j] == q
    requires y < |h.chan[h.channels[x]].nicks|
    ensures h.chan[h.channels[x]].nicks[y] == q <==> x == i && y == j
  {
    var a, b := h.channels[i], h.channels[x];
    assert h.chan[a].nicks[j] in h.chan[a].nicks && h.chan[b].nicks[y] in h.chan[b].nicks;
    hide PairsUnique, Addresses, NickLists;
  }

  lemma PutLinkIs(h: Heap, q: Ptr, modes: set<char>, lastUpdate: int, lastFlags: Option<string>, i: nat, j: nat,
                  info: Info, away: bool)
    requires Linked(h, {}) && Readable(h) && i < |h.channels|
    requires j < |h.chan[h.channels[i]].nicks| && h.chan[h.channels[i]].nicks[j] == q && q in h.link
    ensures var r := PutLink(h, q, modes, lastUpdate, lastFlags);
            var ms := Flat(h, info, away).channels[i].members;
            && Linked(r, {}) && Readable(r)
            && Flat(r, info, away) ==
               WithMembers(Flat(h, info, away), i,
                           ms[j := ms[j].(modes := modes, lastUpdate := lastUpdate, lastFlags := lastFlags)])
  {
    hide Linked;
    var r := PutLink(h, q, modes, lastUpdate, lastFlags);
    LinkedFacts(h, {});
    SameShapeLinked(h, r, {});
    LinkedFacts(r, {});
    var c := h.channels[i];
    forall x, y | 0 <= x < |h.channels| && 0 <= y < |h.chan[h.channels[x]].nicks|
      ensures h.chan[h.channels[x]].nicks[y] == q <==> x == i && y == j
    {
      OnePlace(h, {}, q, i, j, x, y);
    }
    PutLinkFlat(h, q, modes, lastUpdate, lastFlags, i, j);
    assert FlatPeople(r) == FlatPeople(h);
  }

  lemma PutLinkFlat(h: Heap, q: Ptr, modes: set<char>, lastUpdate: int, lastFlags: Option<string>, i: nat, j: nat)
    requires q in h.link && Readable(h) && Readable(PutLink(h, q, modes, lastUpdate, lastFlags)) && NoDup(h.channels)
    requires i < |h.channels| && j < |h.chan[h.channels[i]].nicks|
    requires forall x, y :: 0 <= x < |h.channels| && 0 <= y < |h.chan[h.channels[x]].nicks| ==>
               (h.chan[h.channels[x]].nicks[y] == q <==> x == i && y == j)
    ensures var ms := FlatMembers(h, h.chan[h.channels[i]].nicks);
            FlatChans(PutLink(h, q, modes, lastUpdate, lastFlags)) ==
            FlatChans(h)[i := FlatChans(h)[i].(members :=
              ms[j := ms[j].(modes := modes, lastUpdate := lastUpdate, lastFlags := lastFlags)])]
  {
    var r := PutLink(h, q, modes, lastUpdate, lastFlags);
    var c := h.channels[i];
    var ms := FlatMembers(h, h.chan[c].nicks);
    var changed := ms[j := ms[j].(modes := modes, lastUpdate := lastUpdate, lastFlags := lastFlags)];
    forall x | 0 <= x < |h.channels| && x != i
      ensures FlatMembers(r, r.chan[h.channels[x]].nicks) == FlatMembers(h, h.chan[h.channels[x]].nicks)
    {
      FlatMembersSame(h, r, h.chan[h.channels[x]].nicks);
    }
    assert FlatMembers(r, h.chan[c].nicks) == changed;
    OneChan(h, r, i, h.chan[c].data, changed);
  }

  // ------------------------------------------------------------ new objects

  /** find_add_network_nick's new nick, appended to the list. */
  function NewNickCell(h: Heap, name: string): (r: Heap) {
    h.(nicks := h.nicks + [h.next], nick := h.nick[h.next := NickCell(NewNick(name), [])], next := h.next + 1)
  }

  lemma NewNickLinked(h: Heap, name: string)
    requires Linked(h, {})
    ensures Linked(NewNickCell(h, name), {})
  {
    var r := NewNickCell(h, name);
    hide ChanLists, PairsUnique;
    assert People(r) == People(h) + [h.next];
    assert h.next !in h.nick;
    assert NickLists(r.nick, r.link, {});
    hide NickLists;
    assert h.next !in People(h);
  }

  lemma NewNickIs(h: Heap, name: string, info: Info, away: bool)
    requires Linked(h, {}) && Readable(h)
    ensures var r := NewNickCell(h, name);
            && Linked(r, {}) && Readable(r)
            && Flat(r, info, away) == Flat(h, info, away).(people := Flat(h, info, away).people + [NewNick(name)])
  {
    hide Linked;
    var r := NewNickCell(h, name);
    LinkedFacts(h, {});
    NewNickLinked(h, name);
    LinkedFacts(r, {});
    assert People(r) == People(h) + [h.next];
    assert FlatPeople(r) == FlatPeople(h) + [NewNick(name)];
    forall x | 0 <= x < |h.channels|
      ensures FlatMembers(r, r.chan[h.channels[x]].nicks) == FlatMembers(h, h.chan[h.channels[x]].nicks)
    {
      var qs := h.chan[h.channels[x]].nicks;
      forall y | 0 <= y < |qs|
        ensures MemberAt(People(r), h.link[qs[y]]) == MemberAt(People(h), h.link[qs[y]])
      {
        PositionIs(People(r), h.link[qs[y]].globalNick, Position(People(h), h.link[qs[y]].globalNick));
      }
    }
    assert FlatChans(r) == FlatChans(h);
  }

  /** find_add_channel's new channel, appended to the list. */
  function NewChanCell(h: Heap, name: string): (r: Heap) {
    h.(channels := h.channels + [h.next], chan := h.chan[h.next := ChanCell(NewChan(name), [])], next := h.next + 1)
  }

  lemma NewChanLinked(h: Heap, name: string)
    requires Linked(h, {})
    ensures Linked(NewChanCell(h, name), {})
  {
    var r := NewChanCell(h, name);
    hide NickLists, PairsUnique;
    assert h.next !in h.chan;
    assert ChanLists(r.chan, r.link, {});
    hide ChanLists;
    assert h.next !in h.channels;
  }

  lemma NewChanIs(h: Heap, name: string, info: Info, away: bool)
    requires Linked(h, {}) && Readable(h)
    ensures var r := NewChanCell(h, name);
            && Linked(r, {}) && Readable(r)
            && Flat(r, info, away) ==
               Flat(h, info, away).(channels := Flat(h, info, away).channels + [Chan(NewChan(name), [])])
  {
    hide Linked;
    var r := NewChanCell(h, name);
    LinkedFacts(h, {});
    NewChanLinked(h, name);
    LinkedFacts(r, {});
    assert FlatPeople(r) == FlatPeople(h);
    forall x | 0 <= x < |h.channels|
      ensures FlatMembers(r, r.chan[h.channels[x]].nicks) == FlatMembers(h, h.chan[h.channels[x]].nicks)
    {
      FlatMembersSame(h, r, h.chan[h.channels[x]].nicks);
    }
    assert FlatChans(r) == FlatChans(h) + [Chan(NewChan(name), [])];
  }

  /** find_add_channel_nick's new channel_nick, appended to both lists. */
  function NewLinkCell(h: Heap, c: Ptr, n: Ptr, modes: set<char>): (r: Heap)
    requires c in h.chan && n in h.nick
  {
    h.(link := h.link[h.next := LinkCell(modes, c, n, 0, None)],
       chan := h.chan[c := h.chan[c].(nicks := h.chan[c].nicks + [h.next])],
       nick := h.nick[n := h.nick[n].(channelNicks := h.nick[n].channelNicks + [h.next])],
       next := h.next + 1)
  }

  lemma AppendToChan(chan: map<Ptr, ChanCell>, link: map<Ptr, LinkCell>, q: Ptr, l: LinkCell)
    requires ChanLists(chan, link, {}) && q !in link && l.channel in chan
    ensures ChanLists(chan[l.channel := chan[l.channel].(nicks := chan[l.channel].nicks + [q])], link[q := l], {})
  {
    assert q !in chan[l.channel].nicks;
  }

  lemma AppendToNick(nick: map<Ptr, NickCell>, link: map<Ptr, LinkCell>, q: Ptr, l: LinkCell)
    requires NickLists(nick, link, {}) && q !in link && l.globalNick in nick
    ensures NickLists(nick[l.globalNick := nick[l.globalNick].(channelNicks := nick[l.globalNick].channelNicks + [q])],
                      link[q := l], {})
  {
    assert q !in nick[l.globalNick].channelNicks;
  }

  lemma NewPair(link: map<Ptr, LinkCell>, q: Ptr, l: LinkCell)
    requires PairsUnique(link, {}) && q !in link
    requires forall x :: x in link ==> !SamePair(link[x], l)
    ensures PairsUnique(link[q := l], {})
  {}

  lemma NoSuchPair(chan: map<Ptr, ChanCell>, link: map<Ptr, LinkCell>, l: LinkCell)
    requires ChanLists(chan, link, {}) && l.channel in chan
    requires forall q :: q in chan[l.channel].nicks && q in link ==> link[q].globalNick != l.globalNick
    ensures forall x :: x in link ==> !SamePair(link[x], l)
  {}

  lemma NewLinkLinked(h: Heap, c: Ptr, n: Ptr, modes: set<char>)
    requires Linked(h, {}) && c in h.chan && n in h.nick
    requires forall q :: q in h.chan[c].nicks && q in h.link ==> h.link[q].globalNick != n
    ensures Linked(NewLinkCell(h, c, n, modes), {})
  {
    hide ChanLists, NickLists, PairsUnique, Listed;
    var r := NewLinkCell(h, c, n, modes);
    var l := LinkCell(modes, c, n, 0, None);
    assert h.next !in h.link;
    NoSuchPair(h.chan, h.link, l);
    MeIsThere(h);
    ListedSame(h, r);
    AppendToChan(h.chan, h.link, h.next, l);
    AppendToNick(h.nick, h.link, h.next, l);
    NewPair(h.link, h.next, l);
  }

  lemma NewLinkIs(h: Heap, c: Ptr, n: Ptr, modes: set<char>, i: nat, k: nat, info: Info, away: bool)
    requires Linked(h, {}) && Readable(h) && c in h.chan && n in h.nick
    requires i < |h.channels| && h.channels[i] == c && k < |People(h)| && People(h)[k] == n
    requires forall q :: q in h.chan[c].nicks && q in h.link ==> h.link[q].globalNick != n
    ensures var r := NewLinkCell(h, c, n, modes);
            var s := Flat(h, info, away);
            && Linked(r, {}) && Readable(r)
            && Flat(r, info, away) == WithMembers(s, i, s.channels[i].members + [Member(k, modes, 0, None)])
  {
    hide Linked;
    var r := NewLinkCell(h, c, n, modes);
    LinkedFacts(h, {});
    NewLinkLinked(h, c, n, modes);
    LinkedFacts(r, {});
    PositionIs(People(h), n, k);
    NewLinkFlat(h, c, n, modes, i);
    assert FlatPeople(r) == FlatPeople(h);
  }

  lemma NewLinkFlat(h: Heap, c: Ptr, n: Ptr, modes: set<char>, i: nat)
    requires c in h.chan && n in h.nick && n in People(h) && h.next !in h.link && NoDup(h.channels)
    requires Readable(h) && Readable(NewLinkCell(h, c, n, modes)) && i < |h.channels| && h.channels[i] == c
    ensures FlatChans(NewLinkCell(h, c, n, modes)) ==
            FlatChans(h)[i := FlatChans(h)[i].(members :=
              FlatMembers(h, h.chan[c].nicks) + [Member(Position(People(h), n), modes, 0, None)])]
  {
    var r := NewLinkCell(h, c, n, modes);
    forall x | 0 <= x < |h.channels|
      ensures Resolves(r, h.chan[h.channels[x]].nicks)
      ensures FlatMembers(r, h.chan[h.channels[x]].nicks) == FlatMembers(h, h.chan[h.channels[x]].nicks)
    {
      FlatMembersSame(h, r, h.chan[h.channels[x]].nicks);
    }
    var ms := FlatMembers(h, h.chan[c].nicks) + [Member(Position(People(h), n), modes, 0, None)];
    assert FlatMembers(r, h.chan[c].nicks + [h.next]) == ms;
    OneChan(h, r, i, h.chan[c].data, ms);
  }

  // ---------------------------------------------------------- taking things out

  /** The list half of free_channel_nick: out of both lists, the memory still there. */
  function Unlink(h: Heap, q: Ptr): (r: Heap)
    requires q in h.link && h.link[q].channel in h.chan && h.link[q].globalNick in h.nick
    requires q in h.chan[h.link[q].channel].nicks && q in h.nick[h.link[q].globalNick].channelNicks
  {
    var c, n := h.link[q].channel, h.link[q].globalNick;
    h.(chan := h.chan[c := h.chan[c].(nicks := Remove(h.chan[c].nicks, q))],
       nick := h.nick[n := h.nick[n].(channelNicks := Remove(h.nick[n].channelNicks, q))])
  }

  lemma RemoveFromChan(chan: map<Ptr, ChanCell>, link: map<Ptr, LinkCell>, pending: set<Ptr>, q: Ptr)
    requires ChanLists(chan, link, pending) && q in link && q !in pending
    ensures var c := link[q].channel;
            c in chan && q in chan[c].nicks && NoDup(chan[c].nicks) &&
            ChanLists(chan[c := chan[c].(nicks := Remove(chan[c].nicks, q))], link, pending + {q})
  {
    RemoveFacts(chan[link[q].channel].nicks, q);
    hide Remove;
  }

  lemma RemoveFromNick(nick: map<Ptr, NickCell>, link: map<Ptr, LinkCell>, pending: set<Ptr>, q: Ptr)
    requires NickLists(nick, link, pending) && q in link && q !in pending
    ensures var n := link[q].globalNick;
            n in nick && q in nick[n].channelNicks &&
            NickLists(nick[n := nick[n].(channelNicks := Remove(nick[n].channelNicks, q))], link, pending + {q})
  {
    RemoveFacts(nick[link[q].globalNick].channelNicks, q);
    hide Remove;
  }

  lemma UnlinkLinked(h: Heap, pending: set<Ptr>, q: Ptr)
    requires Linked(h, pending) && q in h.link && q !in pending
    ensures var c, n := h.link[q].channel, h.link[q].globalNick;
            c in h.chan && n in h.nick && q in h.chan[c].nicks && q in h.nick[n].channelNicks && NoDup(h.chan[c].nicks)
    ensures Linked(Unlink(h, q), pending + {q})
  {
    hide ChanLists, NickLists, Remove, Listed, Addresses, PairsUnique;
    RemoveFromChan(h.chan, h.link, pending, q);
    RemoveFromNick(h.nick, h.link, pending, q);
    PairsFewer(h.link, pending, q);
    var r := Unlink(h, q);
    ListedSame(h, r);
    AddressesShrink(h, r);
    assert r.nick[ME].data == h.nick[ME].data by { MeIsThere(h); }
  }

  lemma MeIsThere(h: Heap)
    requires Listed(h)
    ensures ME in h.nick
  {
    assert ME in People(h);
  }

  lemma ListedSame(h: Heap, r: Heap)
    requires Listed(h) && h.channels == r.channels && h.nicks == r.nicks
    requires h.chan.Keys == r.chan.Keys && h.nick.Keys == r.nick.Keys
    ensures Listed(r)
  {
    assert forall p :: p in r.nick <==> p in h.nick;
    assert forall c :: c in r.chan <==> c in h.chan;
  }

  lemma PairsFewer(link: map<Ptr, LinkCell>, pending: set<Ptr>, q: Ptr)
    requires PairsUnique(link, pending)
    ensures PairsUnique(link, pending + {q})
  {}

  lemma UnlinkIs(h: Heap, pending: set<Ptr>, q: Ptr, i: nat, j: nat, info: Info, away: bool)
    requires Linked(h, pending) && Readable(h) && q in h.link && q !in pending
    requires i < |h.channels| && h.channels[i] == h.link[q].channel
    requires j < |h.chan[h.link[q].channel].nicks| && h.chan[h.link[q].channel].nicks[j] == q
    ensures var r := Unlink(h, q);
            var s := Flat(h, info, away);
            && Linked(r, pending + {q}) && Readable(r)
            && Flat(r, info, away) == WithMembers(s, i, Without(s.channels[i].members, j))
  {
    hide Linked, Remove;
    LinkedFacts(h, pending);
    UnlinkLinked(h, pending, q);
    var r, c := Unlink(h, q), h.link[q].channel;
    LinkedFacts(r, pending + {q});
    PositionIs(h.chan[c].nicks, q, j);
    UnlinkFlat(h, q, i, j);
    assert FlatPeople(r) == FlatPeople(h);
  }

  lemma UnlinkFlat(h: Heap, q: Ptr, i: nat, j: nat)
    requires Readable(h) && NoDup(h.channels) && i < |h.channels| && q in h.link && h.channels[i] == h.link[q].channel
    requires q in h.chan[h.channels[i]].nicks && Position(h.chan[h.channels[i]].nicks, q) == j
    requires h.link[q].globalNick in h.nick && q in h.nick[h.link[q].globalNick].channelNicks
    requires Readable(Unlink(h, q))
    ensures FlatChans(Unlink(h, q)) ==
            FlatChans(h)[i := FlatChans(h)[i].(members := Without(FlatMembers(h, h.chan[h.channels[i]].nicks), j))]
  {
    var r, c := Unlink(h, q), h.channels[i];
    forall x | 0 <= x < |h.channels| && x != i
      ensures FlatMembers(r, r.chan[h.channels[x]].nicks) == FlatMembers(h, h.chan[h.channels[x]].nicks)
    {
      FlatMembersSame(h, r, h.chan[h.channels[x]].nicks);
    }
    var ms := Without(FlatMembers(h, h.chan[c].nicks), j);
    assert FlatMembers(r, Without(h.chan[c].nicks, j)) == ms;
    OneChan(h, r, i, h.chan[c].data, ms);
  }

  /** g_free on a channel_nick that is in no list. */
  function Release(h: Heap, q: Ptr): (r: Heap) { h.(link := h.link - {q}) }

  lemma ReleasedChans(chan: map<Ptr, ChanCell>, link: map<Ptr, LinkCell>, pending: set<Ptr>, q: Ptr)
    requires ChanLists(chan, link, pending) && q in pending
    ensures ChanLists(chan, link - {q}, pending - {q})
  {}

  lemma ReleasedNicks(nick: map<Ptr, NickCell>, link: map<Ptr, LinkCell>, pending: set<Ptr>, q: Ptr)
    requires NickLists(nick, link, pending) && q in pending
    ensures NickLists(nick, link - {q}, pending - {q})
  {}

  lemma ReleasedPairs(link: map<Ptr, LinkCell>, pending: set<Ptr>, q: Ptr)
    requires PairsUnique(link, pending) && q in pending
    ensures PairsUnique(link - {q}, pending - {q})
  {}

  lemma ReleaseLinked(h: Heap, pending: set<Ptr>, q: Ptr)
    requires Linked(h, pending) && q in pending
    ensures Linked(Release(h, q), pending - {q})
  {
    var r := Release(h, q);
    hide ChanLists, NickLists, PairsUnique, Listed, Addresses;
    ReleasedChans(h.chan, h.link, pending, q);
    ReleasedNicks(h.nick, h.link, pending, q);
    ReleasedPairs(h.link, pending, q);
    ListedSame(h, r);
    AddressesShrink(h, r);
  }

  lemma ReleaseIs(h: Heap, pending: set<Ptr>, q: Ptr, info: Info, away: bool)
    requires Linked(h, pending) && Readable(h) && q in pending
    ensures var r := Release(h, q);
            Linked(r, pending - {q}) && Readable(r) && Flat(r, info, away) == Flat(h, info, away)
  {
    hide Linked;
    var r := Release(h, q);
    ReleaseLinked(h, pending, q);
    LinkedFacts(r, pending - {q});
    assert FlatPeople(r) == FlatPeople(h);
    forall x | 0 <= x < |h.channels|
      ensures FlatMembers(r, r.chan[h.channels[x]].nicks) == FlatMembers(h, h.chan[h.channels[x]].nicks)
    {
      FlatMembersSame(h, r, h.chan[h.channels[x]].nicks);
    }
    assert FlatChans(r) == FlatChans(h);
  }

  /** The end of free_network_nick: out of the list of nicks and freed. */
  function DropNickCell(h: Heap, n: Ptr): (r: Heap)
    requires n in h.nicks
  {
    h.(nicks := Remove(h.nicks, n), nick := h.nick - {n})
  }

  lemma PeopleRemove(h: Heap, n: Ptr, k: nat)
    requires NoDup(People(h)) && n in h.nicks && k < |People(h)| && People(h)[k] == n
    ensures People(DropNickCell(h, n)) == Without(People(h), k) && k >= 1 && n != ME
    ensures NoDup(Without(People(h), k))
    ensures forall p :: p in Without(People(h), k) <==> p in People(h) && p != n
  {
    var i := Position(h.nicks, n);
    assert People(h)[i + 1] == n && People(h)[0] == ME;
    assert k == i + 1;
    WithoutBehind(ME, h.nicks, i);
    PositionIs(People(h), n, k);
    hide Without, Position;
    RemoveFacts(People(h), n);
  }

  lemma WithoutBehind(p: Ptr, s: seq<Ptr>, i: nat)
    requires i < |s|
    ensures Without([p] + s, i + 1) == [p] + Without(s, i)
  {}

  lemma PositionShifts(ps: seq<Ptr>, k: nat, p: Ptr)
    requires NoDup(ps) && k < |ps| && p in ps && p != ps[k] && p in Without(ps, k) && NoDup(Without(ps, k))
    ensures Position(Without(ps, k), p) == Shift(k, Position(ps, p))
  {
    PositionIs(Without(ps, k), p, Shift(k, Position(ps, p)));
  }

  lemma DropNickLinked(h: Heap, pending: set<Ptr>, n: Ptr, k: nat)
    requires Linked(h, pending) && n in h.nicks && n in h.nick && h.nick[n].channelNicks == []
    requires k < |People(h)| && People(h)[k] == n
    ensures Linked(DropNickCell(h, n), pending)
  {
    var r := DropNickCell(h, n);
    assert NoDup(People(h)) by { hide ChanLists, PairsUnique, NickLists; }
    PeopleRemove(h, n, k);
    hide ChanLists, PairsUnique, Remove, Listed, Addresses, NickLists;
    NickListsDrop(h.nick, h.link, pending, n);
    DropNickListed(h, n, k);
    AddressesShrink(h, r);
    MeIsThere(h);
  }

  lemma NickListsDrop(nick: map<Ptr, NickCell>, link: map<Ptr, LinkCell>, pending: set<Ptr>, n: Ptr)
    requires NickLists(nick, link, pending) && n in nick && nick[n].channelNicks == []
    ensures NickLists(nick - {n}, link, pending)
  {}

  lemma DropNickListed(h: Heap, n: Ptr, k: nat)
    requires Listed(h) && n in h.nicks && k < |People(h)| && People(h)[k] == n
    ensures Listed(DropNickCell(h, n))
  {
    hide Listed, Remove, Without, People, NoDup;
    assert NoDup(People(h)) by { ListedPeople(h); }
    PeopleRemove(h, n, k);
    ListedLess(h, DropNickCell(h, n), n);
  }

  lemma ListedPeople(h: Heap)
    requires Listed(h)
    ensures NoDup(People(h))
  {}

  lemma ListedLess(h: Heap, r: Heap, n: Ptr)
    requires Listed(h) && r.channels == h.channels && r.chan == h.chan && r.nick == h.nick - {n}
    requires NoDup(People(r)) && forall p :: p in People(r) <==> p in People(h) && p != n
    ensures Listed(r)
  {
    hide People, NoDup;
  }

  lemma AddressesShrink(h: Heap, r: Heap)
    requires Addresses(h) && r.next == h.next
    requires r.nick.Keys <= h.nick.Keys && r.chan.Keys <= h.chan.Keys && r.link.Keys <= h.link.Keys
    ensures Addresses(r)
  {}

  lemma DropNickIs(h: Heap, pending: set<Ptr>, n: Ptr, k: nat, info: Info, away: bool)
    requires Linked(h, pending) && Readable(h) && n in h.nicks && n in h.nick && h.nick[n].channelNicks == []
    requires k < |People(h)| && People(h)[k] == n
    ensures var r := DropNickCell(h, n);
            var s := Flat(h, info, away);
            && Linked(r, pending) && Readable(r) && k >= 1
            && Flat(r, info, away) == s.(people := Without(s.people, k), channels := ShiftChans(s.channels, k))
  {
    hide Linked, Remove;
    var r := DropNickCell(h, n);
    LinkedFacts(h, pending);
    PeopleRemove(h, n, k);
    DropNickLinked(h, pending, n, k);
    LinkedFacts(r, pending);
    assert FlatPeople(r) == Without(FlatPeople(h), k);
    DropNickFlat(h, r, k);
  }

  lemma DropNickFlat(h: Heap, r: Heap, k: nat)
    requires Readable(h) && Readable(r) && r.channels == h.channels && r.chan == h.chan && r.link == h.link
    requires NoDup(People(h)) && k < |People(h)| && People(r) == Without(People(h), k) && NoDup(People(r))
    ensures FlatChans(r) == ShiftChans(FlatChans(h), k)
  {
    forall x | 0 <= x < |h.channels|
      ensures FlatMembers(r, r.chan[h.channels[x]].nicks) ==
              ShiftMembers(FlatMembers(h, h.chan[h.channels[x]].nicks), k)
    {
      ShiftedMembers(h, r, h.chan[h.channels[x]].nicks, k);
    }
  }

  lemma ShiftedMembers(h: Heap, r: Heap, qs: seq<Ptr>, k: nat)
    requires Resolves(h, qs) && Resolves(r, qs) && r.link == h.link
    requires NoDup(People(h)) && k < |People(h)| && People(r) == Without(People(h), k) && NoDup(People(r))
    ensures FlatMembers(r, qs) == ShiftMembers(FlatMembers(h, qs), k)
  {
    forall y | 0 <= y < |qs|
      ensures MemberAt(People(r), h.link[qs[y]]).who == Shift(k, MemberAt(People(h), h.link[qs[y]]).who)
    {
      var p := h.link[qs[y]].globalNick;
      assert p in People(r) && p != People(h)[k] by {
        var z :| 0 <= z < |People(r)| && People(r)[z] == p;
      }
      PositionShifts(People(h), k, p);
    }
  }

  /** The end of free_channel_state: out of the list of channels and freed. */
  function DropChanCell(h: Heap, c: Ptr): (r: Heap)
    requires c in h.channels
  {
    h.(channels := Remove(h.channels, c), chan := h.chan - {c})
  }

  lemma DropChanLinked(h: Heap, c: Ptr)
    requires Linked(h, {}) && c in h.channels && c in h.chan && h.chan[c].nicks == []
    ensures Linked(DropChanCell(h, c), {})
  {
    hide NickLists, PairsUnique, Remove, Listed, Addresses, ChanLists;
    var r := DropChanCell(h, c);
    ChanListsDrop(h.chan, h.link, c);
    DropChanListed(h, c);
    AddressesShrink(h, r);
  }

  lemma ChanListsDrop(chan: map<Ptr, ChanCell>, link: map<Ptr, LinkCell>, c: Ptr)
    requires ChanLists(chan, link, {}) && c in chan && chan[c].nicks == []
    ensures ChanLists(chan - {c}, link, {})
  {}

  lemma DropChanListed(h: Heap, c: Ptr)
    requires Listed(h) && c in h.channels
    ensures Listed(DropChanCell(h, c))
  {
    RemoveFacts(h.channels, c);
    hide Remove;
    assert People(DropChanCell(h, c)) == People(h);
  }

  lemma DropChanIs(h: Heap, c: Ptr, i: nat, info: Info, away: bool)
    requires Linked(h, {}) && Readable(h) && i < |h.channels| && h.channels[i] == c && h.chan[c].nicks == []
    ensures var r := DropChanCell(h, c);
            var s := Flat(h, info, away);
            Linked(r, {}) && Readable(r) && Flat(r, info, away) == s.(channels := Without(s.channels, i))
  {
    hide Linked, Remove, Resolves;
    var r := DropChanCell(h, c);
    LinkedFacts(h, {});
    DropChanLinked(h, c);
    LinkedFacts(r, {});
    assert FlatPeople(r) == FlatPeople(h);
    OtherChans(h, c, i);
  }

  lemma OtherChans(h: Heap, c: Ptr, i: nat)
    requires Readable(h) && NoDup(h.channels) && i < |h.channels| && h.channels[i] == c && Readable(DropChanCell(h, c))
    ensures FlatChans(DropChanCell(h, c)) == Without(FlatChans(h), i)
  {
    hide FlatMembers;
    var r := DropChanCell(h, c);
    PositionIs(h.channels, c, i);
    assert r.channels == Without(h.channels, i);
    forall x | 0 <= x < |h.channels| && x != i
      ensures Resolves(h, h.chan[h.channels[x]].nicks) && Resolves(r, h.chan[h.channels[x]].nicks)
      ensures FlatMembers(r, h.chan[h.channels[x]].nicks) == FlatMembers(h, h.chan[h.channels[x]].nicks)
    {
      OtherMembers(h, r, h.chan[h.channels[x]].nicks);
    }
  }

  lemma OtherMembers(h: Heap, r: Heap, qs: seq<Ptr>)
    requires Resolves(h, qs) && r.link == h.link && r.nicks == h.nicks
    ensures Resolves(r, qs) && FlatMembers(r, qs) == FlatMembers(h, qs)
  {
    assert People(r) == People(h);
    assert Resolves(r, qs);
    hide Resolves, MemberAt;
    FlatMembersSame(h, r, qs);
  }
}
