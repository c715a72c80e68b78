/** client_send_state_diff: the lines that turn one state into another, and the proof that for
    membership they do. */
module Diff {
  import opened Base
  import opened Casemap
  import opened Info
  import opened Line
  import opened LineBuffer
  import opened State
  import opened Handlers
  import opened Marshal
  import opened Unique
  import opened Names
  import opened Seating
  import opened Occupancy
  import opened Sending

  // ------------------------------------------------------------------------ what is sent

  function MaskOf(n: Nick): (m: string) { if n.hostmask.Some? then n.hostmask.value else "" }

  function MemberNick(s: Net, i: nat, j: nat): (n: Nick)
    requires Sound(s) && i < |s.channels| && j < |s.channels[i].members|
  {
    s.people[s.channels[i].members[j].who]
  }

  function MemberMasks(s: Net, i: nat): (r: seq<string>)
    requires Sound(s) && i < |s.channels|
    ensures |r| == |s.channels[i].members| && forall j :: 0 <= j < |r| ==> r[j] == MaskOf(MemberNick(s, i, j))
  {
    seq(|s.channels[i].members|, j requires 0 <= j < |s.channels[i].members| => MaskOf(MemberNick(s, i, j)))
  }

  /** find_channel_nick_hostmask. */
  function FindMask(s: Net, i: nat, mask: string): (j: nat)
    requires Sound(s) && i < |s.channels|
    ensures j <= |s.channels[i].members|
  {
    FirstMatch(s.info.casemapping, MemberMasks(s, i), mask)
  }

  /** The first loop of client_send_channel_state_diff: who is gone, who has another nick. */
  function LeaveItems(a: Net, i: nat, b: Net, x: nat, j: nat): (r: seq<Item>)
    requires Sound(a) && Sound(b) && i < |a.channels| && x < |b.channels| && j <= |a.channels[i].members|
    decreases |a.channels[i].members| - j
  {
    if j == |a.channels[i].members| then []
    else
      var mask := MaskOf(MemberNick(a, i, j));
      var y := FindMask(b, x, mask);
      [if y == |b.channels[x].members| then Leaves(mask, b.channels[x].data.name)
       else Renames(mask, MemberNick(b, x, y).nick)]
      + LeaveItems(a, i, b, x, j + 1)
  }

  /** The second loop: who is new. */
  function JoinItems(a: Net, i: nat, b: Net, x: nat, y: nat): (r: seq<Item>)
    requires Sound(a) && Sound(b) && i < |a.channels| && x < |b.channels| && y <= |b.channels[x].members|
    decreases |b.channels[x].members| - y
  {
    if y == |b.channels[x].members| then []
    else
      var n := MemberNick(b, x, y);
      (if FindMember(a, i, n.nick) == |a.channels[i].members| then [Joins(MaskOf(n), b.channels[x].data.name)] else [])
      + JoinItems(a, i, b, x, y + 1)
  }

  function TopicItems(d: ChanData, e: ChanData): (r: seq<Item>) {
    if d.topic == e.topic then []
    else [Quiet(Line(e.topicSetBy, ["TOPIC", e.name] + (if e.topic.Some? then [e.topic.value] else []), ColonUnknown))]
  }

  function ModeItems(p: Peer, d: ChanData, e: ChanData): (r: seq<Item>) {
    var text := ModesToString(e.modes);
    if d.modes == e.modes then []
    else [Quiet(Line(p.origin, ["MODE", e.name] + (if text.Some? then [text.value] else []), ColonUnknown))]
  }

  /** client_send_channel_state_diff. */
  function ChannelItems(p: Peer, a: Net, i: nat, b: Net, x: nat): (r: seq<Item>)
    requires Sound(a) && Sound(b) && i < |a.channels| && x < |b.channels|
  {
    LeaveItems(a, i, b, x, 0) + JoinItems(a, i, b, x, 0)
    + (TopicItems(a.channels[i].data, b.channels[x].data) + ModeItems(p, a.channels[i].data, b.channels[x].data))
  }

  function SeatsOf(s: Net, i: nat): (r: seq<Seat>)
    requires Sound(s) && i < |s.channels|
    ensures |r| == |s.channels[i].members|
    ensures forall j :: 0 <= j < |r| ==> r[j] == Seat(MemberNick(s, i, j).nick, s.channels[i].members[j].modes)
  {
    seq(|s.channels[i].members|, j requires 0 <= j < |s.channels[i].members| =>
      Seat(MemberNick(s, i, j).nick, s.channels[i].members[j].modes))
  }

  /** client_send_topic. */
  function TopicInfo(p: Peer, d: ChanData): (r: seq<Item>) {
    (if d.topic.Some? then [Quiet(Line(p.origin, ["332", p.target, d.name, d.topic.value], ColonUnknown))] else [])
    + (if d.topicSetTime != 0 && d.topicSetBy.Some?
       then [Quiet(Line(p.origin, ["333", p.target, d.name, d.topicSetBy.value, DecInt(d.topicSetTime)],
                        ColonUnknown))] else [])
  }

  /** client_send_channel_state; `chunks` says how the names fall into lines. */
  function OpenItems(p: Peer, own: string, b: Net, x: nat, chunks: seq<seq<string>>): (r: seq<Item>)
    requires x < |b.channels|
  {
    var d := b.channels[x].data;
    [Joins(own, d.name)] + TopicInfo(p, d) + [Lists(d.mode, d.name, chunks)]
  }

  /** The loop over the channels of the old state. */
  function OldItems(p: Peer, own: string, a: Net, b: Net, i: nat): (r: seq<Item>)
    requires Sound(a) && Sound(b) && i <= |a.channels|
    decreases |a.channels| - i
  {
    if i == |a.channels| then []
    else
      var x := FindChan(b, a.channels[i].data.name);
      (if x < |b.channels| then ChannelItems(p, a, i, b, x) else [Leaves(own, a.channels[i].data.name)])
      + OldItems(p, own, a, b, i + 1)
  }

  /** How the names of every channel of the new state fall into lines. */
  type Cuts = seq<seq<seq<string>>>

  /** The loop over the channels of the new state, up to the `x`-th. */
  function NewItems(p: Peer, own: string, a: Net, b: Net, x: nat, cuts: Cuts): (r: seq<Item>)
    requires x <= |b.channels| && x <= |cuts|
  {
    if x == 0 then []
    else
      NewItems(p, own, a, b, x - 1, cuts)
      + (if KnownChan(a, b.channels[x - 1].data.name) then [] else OpenItems(p, own, b, x - 1, cuts[x - 1]))
  }

  /** client_send_state_diff. */
  function DiffItems(p: Peer, own: string, a: Net, b: Net, cuts: Cuts): (r: seq<Item>)
    requires Sound(a) && Sound(b) && |cuts| == |b.channels|
  {
    OldItems(p, own, a, b, 0) + NewItems(p, own, a, b, |b.channels|, cuts)
  }

  // ------------------------------------------------------------------------ all of them

  type Halls = map<string, set<string>>

  function EffectAll(info: Info, m: Halls, me: string, items: seq<Item>): (r: Halls)
    decreases |items|
  {
    if items == [] then m else EffectAll(info, Effect(info, m, me, items[0]), me, items[1..])
  }

  predicate AllOk(info: Info, m: Halls, me: string, items: seq<Item>)
    decreases |items|
  {
    items == [] || (ItemOk(info, m, items[0]) && AllOk(info, Effect(info, m, me, items[0]), me, items[1..]))
  }

  function AllLines(p: Peer, items: seq<Item>): (r: seq<Line>) {
    if items == [] then [] else LinesOf(p, items[0]) + AllLines(p, items[1..])
  }

  lemma {:induction false} EffectSplit(info: Info, m: Halls, me: string, x: seq<Item>, y: seq<Item>)
    ensures EffectAll(info, m, me, x + y) == EffectAll(info, EffectAll(info, m, me, x), me, y)
    ensures AllOk(info, m, me, x + y) <==> AllOk(info, m, me, x) && AllOk(info, EffectAll(info, m, me, x), me, y)
    decreases |x|
  {
    hide Effect, ItemOk;
    if x == [] {
      assert x + y == y;
    } else {
      assert (x + y)[1..] == x[1..] + y && (x + y)[0] == x[0];
      EffectSplit(info, Effect(info, m, me, x[0]), me, x[1..], y);
    }
  }

  lemma HeardSplit(a: seq<Line>, b: seq<Line>, now: int)
    requires Legible(a) && Legible(b)
    ensures Legible(a + b) && Heard(a + b, now) == Heard(a, now) + Heard(b, now)
  {
    hide Parse, PrintNl;
  }

  lemma NothingHeard(s: Net, now: int)
    requires Sound(s)
    ensures Legible([]) && Accepted(s, Heard([], now)) && Run(s, Heard([], now)) == s
  {}

  lemma OkCons(info: Info, m: Halls, me: string, item: Item, rest: seq<Item>)
    requires ItemOk(info, m, item) && AllOk(info, Effect(info, m, me, item), me, rest)
    ensures AllOk(info, m, me, [item] + rest)
    ensures EffectAll(info, m, me, [item] + rest) == EffectAll(info, Effect(info, m, me, item), me, rest)
  {
    hide ItemOk, Effect;
    var all := [item] + rest;
    assert all[0] == item && all[1..] == rest;
  }

  lemma RoomTwice(m: Halls, c: string, x: set<string>, y: set<string>)
    requires c in m
    ensures var a, b := m[c := m[c] - x], m[c := m[c] + x];
            && a[c := a[c] - y] == m[c := m[c] - (x + y)]
            && b[c := b[c] + y] == m[c := m[c] + (x + y)]
    ensures m[c := m[c] - {}] == m && m[c := m[c] + {}] == m
  {
    assert m[c] - x - y == m[c] - (x + y) && m[c] + x + y == m[c] + (x + y);
    assert m[c] - {} == m[c] && m[c] + {} == m[c];
    assert m[c := m[c]] == m;
  }

  /** A receiver that parses the text of all the lines ends where the effects end. */
  lemma {:induction false} ItemsHeard(s: Net, info: Info, m: Halls, me: string, p: Peer, items: seq<Item>, now: int)
    requires Represents(s, info, m, me) && AllOk(info, m, me, items) && PeerOk(p)
    ensures var ls := AllLines(p, items);
            && Legible(ls) && Accepted(s, Heard(ls, now))
            && Represents(Run(s, Heard(ls, now)), info, EffectAll(info, m, me, items), me)
    decreases |items|
  {
    hide Effect, ItemOk, LinesOf, Represents, Legible, Heard, Accepted, Run;
    RepresentsSound(s, info, m, me);
    if items == [] {
      NothingHeard(s, now);
    } else {
      ItemHeard(s, info, m, me, p, items[0], now);
      var a, b := LinesOf(p, items[0]), AllLines(p, items[1..]);
      var s1 := Run(s, Heard(a, now));
      ItemsHeard(s1, info, Effect(info, m, me, items[0]), me, p, items[1..], now);
      HeardSplit(a, b, now);
      RunSplit(s, Heard(a, now), Heard(b, now));
    }
  }

  lemma RepresentsSound(s: Net, info: Info, m: Halls, me: string)
    requires Represents(s, info, m, me)
    ensures Sound(s)
  {}

  // ------------------------------------------------------------------- what is assumed

  /** A member whose hostmask is known, starts with the nick and survives in a line. */
  predicate KnownMask(info: Info, n: Nick) {
    n.hostmask.Some? && PlainMask(info, n.hostmask.value) && NickPart(n.hostmask.value) == n.nick && MiddleArg(n.nick)
  }

  predicate SideOk(info: Info, s: Net) {
    && Sound(s) && Distinct(s) && s.info == info
    && (forall i :: 0 <= i < |s.channels| ==> PlainChan(s.channels[i].data.name))
    && (forall i, j :: 0 <= i < |s.channels| && 0 <= j < |s.channels[i].members| ==>
        KnownMask(info, MemberNick(s, i, j)))
  }

  predicate SameMaskIfSameNick(info: Info, n: Nick, m: Nick) {
    Eq(info, n.nick, m.nick) ==> Eq(info, MaskOf(m), MaskOf(n))
  }

  /** Nicks in both sides of a channel keep their hostmask, and `me`, if there, stays. */
  predicate Compatible(a: Net, i: nat, b: Net, x: nat)
    requires Sound(a) && Sound(b) && i < |a.channels| && x < |b.channels|
  {
    && (forall j, y :: 0 <= j < |a.channels[i].members| && 0 <= y < |b.channels[x].members| ==>
          SameMaskIfSameNick(a.info, MemberNick(a, i, j), MemberNick(b, x, y)))
    && (MeKey(a) in Seats(a, i) ==> MeKey(a) in Seats(b, x))
  }

  predicate QuietsLegible(items: seq<Item>) {
    forall k :: 0 <= k < |items| && items[k].Quiet? ==> WellFormed(items[k].line)
  }

  // ------------------------------------------------------------------ one shared channel

  lemma SameNickPart(cm: Casemapping, a: string, b: string)
    requires Same(cm, a, b) && '!' in a && '!' in b
    ensures Same(cm, NickPart(a), NickPart(b))
  {
    var t, i := Top(cm), IndexOf(a, '!');
    FoldSeq(t, a);
    FoldSeq(t, b);
    forall k | 0 <= k < |a|
      ensures k < |b| && (a[k] == '!' <==> b[k] == '!')
    {
      assert FoldString(t, a)[k] == FoldString(t, b)[k];
    }
    assert forall k :: 0 <= k < i ==> a[k] in a[..i];
    IndexOfIs(b, '!', i);
    FoldSeq(t, a[..i]);
    FoldSeq(t, b[..i]);
    assert FoldString(t, a[..i]) == FoldString(t, a)[..i] && FoldString(t, b[..i]) == FoldString(t, b)[..i];
  }

  lemma FoldSeq(t: int, s: string)
    requires 90 <= t <= 94
    ensures |FoldString(t, s)| == |s|
    ensures forall k :: 0 <= k < |s| ==>
            FoldString(t, s)[k] == FoldChar(t, s[k]) && (FoldChar(t, s[k]) == '!' <==> s[k] == '!')
  {}

  /** Somebody is found by hostmask on the other side exactly when the nick is there. */
  lemma KeptIff(info: Info, a: Net, i: nat, b: Net, x: nat, j: nat)
    requires SideOk(info, a) && SideOk(info, b) && i < |a.channels| && x < |b.channels| && j < |a.channels[i].members|
    requires Compatible(a, i, b, x)
    ensures var n := MemberNick(a, i, j);
            var y := FindMask(b, x, MaskOf(n));
            && (y < |b.channels[x].members| <==> NickKey(a, i, j) in Seats(b, x))
            && (y < |b.channels[x].members| ==>
                Eq(info, n.nick, MemberNick(b, x, y).nick) && MiddleArg(MemberNick(b, x, y).nick))
  {
    hide Distinct, MiddleArg, PlainMask, Sound;
    var n := MemberNick(a, i, j);
    assert KnownMask(info, n) && '!' in n.hostmask.value by { MaskFacts(info, a, i, j); }
    var masks, y := MemberMasks(b, x), FindMask(b, x, MaskOf(n));
    if y < |b.channels[x].members| {
      MaskFacts(info, b, x, y);
      SameNickPart(info.casemapping, masks[y], MaskOf(n));
      assert NickKey(b, x, y) == NickKey(a, i, j);
    }
    forall z | 0 <= z < |b.channels[x].members| && NickKey(b, x, z) == NickKey(a, i, j)
      ensures Same(info.casemapping, masks[z], MaskOf(n))
    {
      assert SameMaskIfSameNick(a.info, n, MemberNick(b, x, z));
    }
  }

  lemma MaskFacts(info: Info, s: Net, i: nat, j: nat)
    requires SideOk(info, s) && i < |s.channels| && j < |s.channels[i].members|
    ensures var n := MemberNick(s, i, j);
            && KnownMask(info, n) && MaskOf(n) == n.hostmask.value && '!' in n.hostmask.value &&
               PlainMask(info, MaskOf(n))
            && n.nick == NickPart(MaskOf(n)) && !HasPrefix(info, n.nick) && MiddleArg(n.nick)
            && NickKey(s, i, j) == Folded(info, n.nick)
  {}

  function Gone(a: Net, i: nat, ns: set<string>, j: nat): (r: set<string>)
    requires Sound(a) && i < |a.channels|
  {
    set k | j <= k < |a.channels[i].members| && NickKey(a, i, k) !in ns :: NickKey(a, i, k)
  }

  lemma GoneStep(a: Net, i: nat, ns: set<string>, j: nat)
    requires Sound(a) && i < |a.channels| && j < |a.channels[i].members|
    ensures Gone(a, i, ns, j) == (if NickKey(a, i, j) in ns then {} else {NickKey(a, i, j)}) + Gone(a, i, ns, j + 1)
  {}

  function LeaveItem(a: Net, i: nat, b: Net, x: nat, j: nat): (r: Item)
    requires Sound(a) && Sound(b) && i < |a.channels| && x < |b.channels| && j < |a.channels[i].members|
  {
    var mask := MaskOf(MemberNick(a, i, j));
    var y := FindMask(b, x, mask);
    if y == |b.channels[x].members| then Leaves(mask, b.channels[x].data.name)
    else Renames(mask, MemberNick(b, x, y).nick)
  }

  lemma LeaveItemEffect(info: Info, m: Halls, a: Net, i: nat, b: Net, x: nat, j: nat)
    requires SideOk(info, a) && SideOk(info, b) && i < |a.channels| && x < |b.channels| && j < |a.channels[i].members|
    requires Compatible(a, i, b, x) && ChanKey(a, i) == ChanKey(b, x) && ChanKey(b, x) in m
    ensures var c, n, item := ChanKey(b, x), NickKey(a, i, j), LeaveItem(a, i, b, x, j);
            && ItemOk(info, m, item)
            && Effect(info, m, MeKey(a), item) == m[c := m[c] - if n in Seats(b, x) then {} else {n}]
  {
    KeptIff(info, a, i, b, x, j);
    MaskFacts(info, a, i, j);
    assert PlainChan(b.channels[x].data.name);
    assert NickKey(a, i, j) in Seats(a, i);
    hide Sound, Distinct, PlainMask, PlainChan, MiddleArg, Seats, FindMask, KnownMask, Folded;
    var c := ChanKey(b, x);
    RoomTwice(m, c, {}, {});
    assert c == Folded(info, b.channels[x].data.name) by { ChanKeyIs(b, x); }
  }

  lemma ChanKeyIs(s: Net, i: nat)
    requires i < |s.channels|
    ensures ChanKey(s, i) == Folded(s.info, s.channels[i].data.name)
  {}

  lemma {:induction false} LeaveEffect(info: Info, m: Halls, a: Net, i: nat, b: Net, x: nat, j: nat)
    requires SideOk(info, a) && SideOk(info, b) && i < |a.channels| && x < |b.channels| && j <= |a.channels[i].members|
    requires Compatible(a, i, b, x) && ChanKey(a, i) == ChanKey(b, x) && ChanKey(b, x) in m
    ensures var c, items := ChanKey(b, x), LeaveItems(a, i, b, x, j);
            && AllOk(info, m, MeKey(a), items)
            && EffectAll(info, m, MeKey(a), items) == m[c := m[c] - Gone(a, i, Seats(b, x), j)]
    decreases |a.channels[i].members| - j
  {
    hide Compatible, Distinct, Seats, NickKey, ItemOk, Effect, Sound;
    var c, me, gone := ChanKey(b, x), MeKey(a), Gone(a, i, Seats(b, x), j);
    RoomTwice(m, c, {}, {});
    if j == |a.channels[i].members| {
      assert gone == {};
    } else {
      var item, rest := LeaveItem(a, i, b, x, j), LeaveItems(a, i, b, x, j + 1);
      var one := if NickKey(a, i, j) in Seats(b, x) then {} else {NickKey(a, i, j)};
      LeaveItemEffect(info, m, a, i, b, x, j);
      GoneStep(a, i, Seats(b, x), j);
      hide Gone, SideOk, AllOk, EffectAll;
      LeaveEffect(info, m[c := m[c] - one], a, i, b, x, j + 1);
      RoomTwice(m, c, one, Gone(a, i, Seats(b, x), j + 1));
      assert LeaveItems(a, i, b, x, j) == [item] + rest;
      OkCons(info, m, me, item, rest);
    }
  }

  /** Somebody of the new state is unknown in the channel's old state. */
  lemma NewIff(info: Info, a: Net, i: nat, b: Net, x: nat, y: nat)
    requires SideOk(info, a) && SideOk(info, b) && i < |a.channels| && x < |b.channels| && y < |b.channels[x].members|
    ensures FindMember(a, i, MemberNick(b, x, y).nick) == |a.channels[i].members| <==> NickKey(b, x, y) !in Seats(a, i)
  {
    hide Distinct, MiddleArg, PlainMask;
    MaskFacts(info, b, x, y);
    var n := MemberNick(b, x, y).nick;
    var names, j := MemberNames(a.people, a.channels[i].members), FindMember(a, i, n);
    if j < |a.channels[i].members| {
      assert Same(info.casemapping, names[j], n);
      assert NickKey(a, i, j) == NickKey(b, x, y);
    }
    assert forall z :: 0 <= z < |a.channels[i].members| && NickKey(a, i, z) == NickKey(b, x, y) ==>
        Same(info.casemapping, names[z], n);
  }

  lemma JoinItemEffect(info: Info, m: Halls, b: Net, x: nat, y: nat, me: string)
    requires SideOk(info, b) && x < |b.channels| && y < |b.channels[x].members| && ChanKey(b, x) in m
    ensures var c, item := ChanKey(b, x), Joins(MaskOf(MemberNick(b, x, y)), b.channels[x].data.name);
            ItemOk(info, m, item) && Effect(info, m, me, item) == m[c := m[c] + {NickKey(b, x, y)}]
  {
    MaskFacts(info, b, x, y);
    assert PlainChan(b.channels[x].data.name);
  }

  lemma {:induction false} JoinEffect(info: Info, m: Halls, a: Net, i: nat, b: Net, x: nat, y: nat)
    requires SideOk(info, a) && SideOk(info, b) && i < |a.channels| && x < |b.channels| && y <= |b.channels[x].members|
    requires ChanKey(b, x) in m
    ensures var c, items := ChanKey(b, x), JoinItems(a, i, b, x, y);
            && AllOk(info, m, MeKey(a), items)
            && EffectAll(info, m, MeKey(a), items) == m[c := m[c] + Gone(b, x, Seats(a, i), y)]
    decreases |b.channels[x].members| - y
  {
    hide Distinct, Seats, NickKey, ItemOk, Effect, FindMember, Sound;
    var c, me, added := ChanKey(b, x), MeKey(a), Gone(b, x, Seats(a, i), y);
    RoomTwice(m, c, {}, {});
    if y == |b.channels[x].members| {
      assert added == {};
    } else {
      var item, rest := Joins(MaskOf(MemberNick(b, x, y)), b.channels[x].data.name), JoinItems(a, i, b, x, y + 1);
      var one := if NickKey(b, x, y) in Seats(a, i) then {} else {NickKey(b, x, y)};
      NewIff(info, a, i, b, x, y);
      GoneStep(b, x, Seats(a, i), y);
      JoinItemEffect(info, m, b, x, y, me);
      hide Gone, SideOk, AllOk, EffectAll;
      JoinEffect(info, m[c := m[c] + one], a, i, b, x, y + 1);
      RoomTwice(m, c, one, Gone(b, x, Seats(a, i), y + 1));
      if NickKey(b, x, y) !in Seats(a, i) {
        OkCons(info, m, me, item, rest);
      } else {
        assert JoinItems(a, i, b, x, y) == rest;
      }
    }
  }

  /** Items that are topic or mode lines change nobody's channels. */
  lemma {:induction false} QuietEffect(info: Info, m: Halls, me: string, items: seq<Item>)
    requires forall k :: 0 <= k < |items| ==> items[k].Quiet? && QuietOk(info, m, items[k].line)
    ensures AllOk(info, m, me, items) && EffectAll(info, m, me, items) == m
  {
    hide QuietOk;
    if items != [] { QuietEffect(info, m, me, items[1..]); }
  }

  lemma QuietWords()
    ensures CommandNamed("TOPIC") == TOPIC && CommandNamed("MODE") == MODE
    ensures CommandNamed("332") == N332 && CommandNamed("333") == N333
  {
    AsciiEqRefl("TOPIC");
    AsciiEqRefl("MODE");
    AsciiNe("JOIN", "TOPIC");
    AsciiNe("PART", "TOPIC");
    AsciiNe("KICK", "TOPIC");
    AsciiNe("QUIT", "TOPIC");
    AsciiNe("JOIN", "MODE");
    AsciiNe("PART", "MODE");
    AsciiNe("KICK", "MODE");
    AsciiNe("QUIT", "MODE");
    AsciiNe("TOPIC", "MODE");
    AsciiNe("NICK", "MODE");
    AsciiNe("PRIVMSG", "MODE");
    NotAWord("332");
    NotAWord("333");
  }

  /** The network supports modes on channels of this name, and the sender has a name of its own. */
  predicate ModesOn(info: Info, p: Peer, chan: string) {
    p.origin.Some? && info.chantypes.Some? && ChanmodesOk(info) && IsChannelName(info, chan)
  }

  lemma QuietItemsOk(info: Info, m: Halls, p: Peer, d: ChanData, e: ChanData)
    requires Folded(info, e.name) in m && ModesOn(info, p, e.name)
    requires QuietsLegible(TopicItems(d, e) + ModeItems(p, d, e))
    ensures var items := TopicItems(d, e) + ModeItems(p, d, e);
            forall k :: 0 <= k < |items| ==> items[k].Quiet? && QuietOk(info, m, items[k].line)
  {
    hide WellFormed, ModesToString, IsChannelName, ChanmodesOk, Folded;
    QuietWords();
    hide CommandNamed;
  }

  lemma TopicInfoOk(info: Info, m: Halls, p: Peer, d: ChanData)
    requires QuietsLegible(TopicInfo(p, d))
    ensures var items := TopicInfo(p, d);
            forall k :: 0 <= k < |items| ==> items[k].Quiet? && QuietOk(info, m, items[k].line)
  {
    hide WellFormed, DecInt;
    QuietWords();
    hide CommandNamed;
  }

  lemma LegibleParts(x: seq<Item>, y: seq<Item>)
    requires QuietsLegible(x + y)
    ensures QuietsLegible(x) && QuietsLegible(y)
  {
    hide WellFormed;
    assert forall k :: 0 <= k < |x| ==> x[k] == (x + y)[k];
    assert forall k :: 0 <= k < |y| ==> y[k] == (x + y)[|x| + k];
  }

  lemma SeatsSwap(a: Net, i: nat, b: Net, x: nat)
    requires Sound(a) && Sound(b) && i < |a.channels| && x < |b.channels|
    ensures Seats(a, i) - Gone(a, i, Seats(b, x), 0) + Gone(b, x, Seats(a, i), 0) == Seats(b, x)
  {
    var l := Seats(a, i) - Gone(a, i, Seats(b, x), 0) + Gone(b, x, Seats(a, i), 0);
    assert forall n :: n in l ==> n in Seats(b, x);
    assert forall n :: n in Seats(b, x) ==> n in l;
  }

  /** client_send_channel_state_diff turns the members of one channel into those of the other. */
  lemma ChannelEffect(info: Info, m: Halls, p: Peer, a: Net, i: nat, b: Net, x: nat)
    requires SideOk(info, a) && SideOk(info, b) && i < |a.channels| && x < |b.channels|
    requires Compatible(a, i, b, x) && ChanKey(a, i) == ChanKey(b, x) && ChanKey(b, x) in m
    requires m[ChanKey(b, x)] == Seats(a, i)
    requires QuietsLegible(ChannelItems(p, a, i, b, x)) && ModesOn(info, p, b.channels[x].data.name)
    ensures AllOk(info, m, MeKey(a), ChannelItems(p, a, i, b, x))
    ensures EffectAll(info, m, MeKey(a), ChannelItems(p, a, i, b, x)) == m[ChanKey(b, x) := Seats(b, x)]
  {
    hide SideOk, Compatible, Sound, Distinct, Seats, Gone, AllOk, EffectAll, TopicItems, ModeItems, QuietsLegible;
    hide ModesOn, ChanKey;
    assert b.info == info && Sound(a) && Sound(b) by { SideFacts(info, a, b); }
    var c, me := ChanKey(b, x), MeKey(a);
    var d, e := a.channels[i].data, b.channels[x].data;
    var leave, join := LeaveItems(a, i, b, x, 0), JoinItems(a, i, b, x, 0);
    var quiet := TopicItems(d, e) + ModeItems(p, d, e);
    LeaveEffect(info, m, a, i, b, x, 0);
    var m1 := m[c := m[c] - Gone(a, i, Seats(b, x), 0)];
    JoinEffect(info, m1, a, i, b, x, 0);
    var m2 := m1[c := m1[c] + Gone(b, x, Seats(a, i), 0)];
    SeatsSwap(a, i, b, x);
    assert m2 == m[c := Seats(b, x)];
    LegibleParts(leave + join, quiet);
    ChanKeyIs(b, x);
    QuietItemsOk(info, m2, p, d, e);
    QuietEffect(info, m2, me, quiet);
    EffectSplit(info, m, me, leave, join);
    EffectSplit(info, m, me, leave + join, quiet);
  }

  lemma SideFacts(info: Info, a: Net, b: Net)
    requires SideOk(info, a) && SideOk(info, b)
    ensures Sound(a) && Sound(b) && Distinct(a) && Distinct(b) && a.info == info && b.info == info
  {}

  // -------------------------------------------------------------------- the whole state

  lemma RoomIs(s: Net, i: nat)
    requires Sound(s) && Distinct(s) && i < |s.channels|
    ensures ChanKey(s, i) in Rooms(s) && Rooms(s)[ChanKey(s, i)] == Seats(s, i)
  {
    RosterSplit(s, i);
    assert ChanKey(s, i) in Chans(s);
    hide Sound, Distinct, Chans, Seats, ChanKey;
    NamedWithout(Roster(s), ChanKey(s, i), Seats(s, i));
    hide Roster;
  }

  predicate Done(s: Net, n: nat, c: string)
    requires n <= |s.channels|
  {
    exists i :: 0 <= i < n && ChanKey(s, i) == c
  }

  /** After the first `n` channels of the old state. */
  function Halfway(a: Net, b: Net, n: nat): (r: Halls)
    requires Sound(a) && Sound(b) && n <= |a.channels|
  {
    map c | c in Rooms(a) && (Done(a, n, c) ==> c in Rooms(b)) :: if Done(a, n, c) then Rooms(b)[c] else Rooms(a)[c]
  }

  lemma DoneStep(s: Net, n: nat)
    requires Sound(s) && Distinct(s) && n < |s.channels|
    ensures !Done(s, n, ChanKey(s, n)) && Done(s, n + 1, ChanKey(s, n))
    ensures forall c :: c != ChanKey(s, n) ==> (Done(s, n + 1, c) <==> Done(s, n, c))
  {
    KeysDiffer(s);
    hide ChanKey;
    forall c | c != ChanKey(s, n)
      ensures Done(s, n + 1, c) <==> Done(s, n, c)
    {
      assert forall i :: 0 <= i < n + 1 && ChanKey(s, i) == c ==> i < n;
    }
  }

  lemma HalfwayStep(a: Net, b: Net, n: nat)
    requires Sound(a) && Sound(b) && Distinct(a) && n < |a.channels|
    ensures var c, m := ChanKey(a, n), Halfway(a, b, n);
            && c in m && c in Rooms(a) && m[c] == Rooms(a)[c]
            && Halfway(a, b, n + 1) == if c in Rooms(b) then m[c := Rooms(b)[c]] else m - {c}
  {
    DoneStep(a, n);
    RoomIs(a, n);
    hide ChanKey, Rooms, Done, Sound, Distinct, Seats;
    HalvesAt(Rooms(a), Rooms(b), c => Done(a, n, c), c => Done(a, n + 1, c), ChanKey(a, n));
    assert Halfway(a, b, n) == Halves(Rooms(a), Rooms(b), c => Done(a, n, c));
    assert Halfway(a, b, n + 1) == Halves(Rooms(a), Rooms(b), c => Done(a, n + 1, c));
  }

  function Halves(a: Halls, b: Halls, done: string -> bool): (r: Halls) {
    map c | c in a && (done(c) ==> c in b) :: if done(c) then b[c] else a[c]
  }

  lemma HalvesAt(a: Halls, b: Halls, before: string -> bool, after: string -> bool, k: string)
    requires k in a && !before(k) && after(k) && forall c :: c != k ==> (before(c) <==> after(c))
    ensures var m := Halves(a, b, before);
            k in m && m[k] == a[k] && Halves(a, b, after) == if k in b then m[k := b[k]] else m - {k}
  {
    var m := Halves(a, b, before);
    if k in b {
      assert Halves(a, b, after) == m[k := b[k]];
    } else {
      assert Halves(a, b, after) == m - {k};
    }
  }

  /** Every channel in both states is compatible; `me` may leave the others. */
  predicate DiffOk(info: Info, p: Peer, own: string, a: Net, b: Net) {
    && SideOk(info, a) && SideOk(info, b)
    && PlainMask(info, own) && Folded(info, NickPart(own)) == MeKey(a)
    && (forall i, x :: 0 <= i < |a.channels| && 0 <= x < |b.channels| && ChanKey(a, i) == ChanKey(b, x) ==>
        Compatible(a, i, b, x))
    && (forall x :: 0 <= x < |b.channels| ==> ModesOn(info, p, b.channels[x].data.name))
  }

  lemma FoundIs(info: Info, a: Net, i: nat, b: Net)
    requires SideOk(info, a) && SideOk(info, b) && i < |a.channels|
    ensures var x := FindChan(b, a.channels[i].data.name);
            && (x < |b.channels| <==> ChanKey(a, i) in Rooms(b))
            && (x < |b.channels| ==> ChanKey(b, x) == ChanKey(a, i))
  {
    KnownKey(b, a.channels[i].data.name);
  }

  lemma {:induction false} OldEffect(info: Info, p: Peer, own: string, a: Net, b: Net, i: nat)
    requires DiffOk(info, p, own, a, b) && i <= |a.channels| && QuietsLegible(OldItems(p, own, a, b, i))
    ensures AllOk(info, Halfway(a, b, i), MeKey(a), OldItems(p, own, a, b, i))
    ensures EffectAll(info, Halfway(a, b, i), MeKey(a), OldItems(p, own, a, b, i)) == Halfway(a, b, |a.channels|)
    decreases |a.channels| - i
  {
    hide AllOk, EffectAll, Halfway, Sound, Distinct, QuietsLegible, Rooms, Seats, ChanKey, Compatible;
    var me := MeKey(a);
    if i == |a.channels| {
      NoEffect(info, Halfway(a, b, i), me);
    } else {
      var x, m := FindChan(b, a.channels[i].data.name), Halfway(a, b, i);
      var rest := OldItems(p, own, a, b, i + 1);
      HalfwayStep(a, b, i);
      FoundIs(info, a, i, b);
      RoomIs(a, i);
      var items := if x < |b.channels| then ChannelItems(p, a, i, b, x) else [Leaves(own, a.channels[i].data.name)];
      LegibleParts(items, rest);
      OldEffect(info, p, own, a, b, i + 1);
      if x < |b.channels| {
        RoomIs(b, x);
        ChannelEffect(info, m, p, a, i, b, x);
      } else {
        LeaveChannel(info, m, me, own, a, i);
      }
      EffectSplit(info, m, me, items, rest);
    }
  }

  lemma NoEffect(info: Info, m: Halls, me: string)
    ensures AllOk(info, m, me, []) && EffectAll(info, m, me, []) == m
  {}

  lemma LeaveChannel(info: Info, m: Halls, me: string, own: string, a: Net, i: nat)
    requires SideOk(info, a) && i < |a.channels| && PlainMask(info, own) && Folded(info, NickPart(own)) == me
    requires ChanKey(a, i) in m
    ensures var items := [Leaves(own, a.channels[i].data.name)];
            AllOk(info, m, me, items) && EffectAll(info, m, me, items) == m - {ChanKey(a, i)}
  {
    hide PlainMask;
    ChanKeyIs(a, i);
    var item := Leaves(own, a.channels[i].data.name);
    assert ItemOk(info, m, item) && Effect(info, m, me, item) == m - {ChanKey(a, i)};
    NoEffect(info, m - {ChanKey(a, i)}, me);
    OkCons(info, m, me, item, []);
    assert [item] + [] == [item];
  }

  /** After the first `n` channels of the new state as well. */
  function Almost(a: Net, b: Net, n: nat): (r: Halls)
    requires Sound(a) && Sound(b) && n <= |b.channels|
  {
    map c | c in Rooms(b) && (c in Rooms(a) || Done(b, n, c)) :: Rooms(b)[c]
  }

  lemma AlmostStep(a: Net, b: Net, n: nat)
    requires Sound(a) && Sound(b) && Distinct(b) && n < |b.channels|
    ensures var c, m := ChanKey(b, n), Almost(a, b, n);
            && (c in Rooms(a) ==> Almost(a, b, n + 1) == m)
            && (c !in Rooms(a) ==> c !in m && Almost(a, b, n + 1) == m[c := Seats(b, n)])
  {
    DoneStep(b, n);
    RoomIs(b, n);
    hide ChanKey, Rooms, Done, Sound, Distinct, Seats;
    GrownAt(Rooms(a), Rooms(b), c => Done(b, n, c), c => Done(b, n + 1, c), ChanKey(b, n));
    assert Almost(a, b, n) == Grown(Rooms(a), Rooms(b), c => Done(b, n, c));
    assert Almost(a, b, n + 1) == Grown(Rooms(a), Rooms(b), c => Done(b, n + 1, c));
  }

  function Grown(a: Halls, b: Halls, done: string -> bool): (r: Halls) { map c | c in b && (c in a || done(c)) :: b[c] }

  lemma GrownAt(a: Halls, b: Halls, before: string -> bool, after: string -> bool, k: string)
    requires k in b && !before(k) && after(k) && forall c :: c != k ==> (before(c) <==> after(c))
    ensures var m := Grown(a, b, before);
            && (k in a ==> Grown(a, b, after) == m)
            && (k !in a ==> k !in m && Grown(a, b, after) == m[k := b[k]])
  {
    var m := Grown(a, b, before);
    if k in a {
      assert Grown(a, b, after) == m;
    } else {
      assert Grown(a, b, after) == m[k := b[k]];
    }
  }

  lemma AllDone(s: Net, c: string)
    requires Sound(s)
    ensures !Done(s, 0, c) && (c in Rooms(s) ==> Done(s, |s.channels|, c))
  {
    hide ChanKey, Sound;
    assert c in Rooms(s) ==> c in Chans(s);
  }

  lemma AlmostEnds(a: Net, b: Net)
    requires Sound(a) && Sound(b)
    ensures Halfway(a, b, |a.channels|) == Almost(a, b, 0) && Almost(a, b, |b.channels|) == Rooms(b)
  {
    hide Rooms, Sound, Done;
    forall c: string
      ensures !Done(b, 0, c) && (c in Rooms(a) ==> Done(a, |a.channels|, c))
      ensures (c in Rooms(b) ==> Done(b, |b.channels|, c))
    {
      AllDone(a, c);
      AllDone(b, c);
    }
  }

  /** How the names of a new channel fall into lines, and what makes them legible. */
  predicate CutOk(info: Info, letters: string, symbols: string, b: Net, x: nat, chunks: seq<seq<string>>)
    requires Sound(b) && x < |b.channels|
  {
    && MatchedPrefix(info, letters, symbols) && PlainSymbols(symbols)
    && Chunked(chunks) && Flattened(chunks) == AllShown(info, SeatsOf(b, x)) && b.channels[x].members != []
    && ChannelOk(b.channels[x].data.mode, b.channels[x].data.name)
    && forall j :: 0 <= j < |b.channels[x].members| ==> NameOk(MemberNick(b, x, j).nick)
  }

  lemma ShownSeats(info: Info, letters: string, symbols: string, b: Net, x: nat)
    requires SideOk(info, b) && x < |b.channels| && MatchedPrefix(info, letters, symbols)
    ensures FoldedNames(info, AllShown(info, SeatsOf(b, x))) == Seats(b, x)
  {
    var names := AllShown(info, SeatsOf(b, x));
    forall j | 0 <= j < |names|
      ensures Folded(info, StripPrefix(info, names[j])) == NickKey(b, x, j)
    {
      MaskFacts(info, b, x, j);
      ShownMeans(info, letters, symbols, SeatsOf(b, x)[j]);
    }
  }

  lemma CutIsListOk(info: Info, m: Halls, letters: string, symbols: string, b: Net, x: nat, chunks: seq<seq<string>>)
    requires SideOk(info, b) && x < |b.channels| && CutOk(info, letters, symbols, b, x, chunks) && ChanKey(b, x) in m
    ensures ListOk(info, m, b.channels[x].data.mode, b.channels[x].data.name, chunks) && chunks != []
  {
    hide MatchedPrefix, PlainSymbols, Shown, ChannelOk, NameOk, OnePrefix, Distinct, KnownMask, PlainChan;
    ChanKeyIs(b, x);
    var names := AllShown(info, SeatsOf(b, x));
    forall j | 0 <= j < |names|
      ensures OnePrefix(info, names[j]) && NameOk(names[j])
    {
      MaskFacts(info, b, x, j);
      ShownMeans(info, letters, symbols, SeatsOf(b, x)[j]);
      ShownIsName(info, letters, symbols, SeatsOf(b, x)[j]);
    }
    ChunksOnePrefix(info, chunks);
    ChunksPlain(chunks);
  }

  lemma OpenEffect(info: Info, m: Halls, me: string, p: Peer, own: string, letters: string, symbols: string, b: Net,
                   x: nat,
                   chunks: seq<seq<string>>)
    requires SideOk(info, b) && x < |b.channels| && CutOk(info, letters, symbols, b, x, chunks) && PlainMask(info, own)
    requires QuietsLegible(OpenItems(p, own, b, x, chunks))
    ensures AllOk(info, m, me, OpenItems(p, own, b, x, chunks))
    ensures EffectAll(info, m, me, OpenItems(p, own, b, x, chunks)) == m[ChanKey(b, x) := Seats(b, x)]
  {
    var d, c := b.channels[x].data, ChanKey(b, x);
    var join, list, quiet := Joins(own, d.name), Lists(d.mode, d.name, chunks), TopicInfo(p, d);
    JoinThenList(info, m, me, own, letters, symbols, b, x, chunks);
    var m1, m2 := Effect(info, m, me, join), m[c := Seats(b, x)];
    hide SideOk, CutOk, AllOk, EffectAll, Effect, ItemOk, QuietsLegible, TopicInfo, Seats, ChanKey, QuietOk, PlainMask;
    LegibleParts([join] + quiet, [list]);
    LegibleParts([join], quiet);
    TopicInfoOk(info, m1, p, d);
    QuietEffect(info, m1, me, quiet);
    NoEffect(info, m2, me);
    OkCons(info, m1, me, list, []);
    assert [list] + [] == [list];
    EffectSplit(info, m1, me, quiet, [list]);
    OkCons(info, m, me, join, quiet + [list]);
    assert [join] + quiet + [list] == [join] + (quiet + [list]);
  }

  /** Joining a channel, and hearing its members whatever is said about the topic in between. */
  lemma JoinThenList(info: Info, m: Halls, me: string, own: string, letters: string, symbols: string, b: Net, x: nat,
                     chunks: seq<seq<string>>)
    requires SideOk(info, b) && x < |b.channels| && CutOk(info, letters, symbols, b, x, chunks) && PlainMask(info, own)
    ensures var d := b.channels[x].data;
            var join, list := Joins(own, d.name), Lists(d.mode, d.name, chunks);
            var m1 := Effect(info, m, me, join);
            && ItemOk(info, m, join) && ItemOk(info, m1, list)
            && Effect(info, m1, me, list) == m[ChanKey(b, x) := Seats(b, x)]
  {
    var d, c := b.channels[x].data, ChanKey(b, x);
    var m1 := Effect(info, m, me, Joins(own, d.name));
    ChanKeyIs(b, x);
    assert PlainChan(d.name);
    CutIsListOk(info, m1, letters, symbols, b, x, chunks);
    ShownSeats(info, letters, symbols, b, x);
    ListItemOk(info, m1, Lists(d.mode, d.name, chunks));
    hide SideOk, Seats, ChanKey, PlainMask, ListOk, FoldedNames;
  }

  lemma ListItemOk(info: Info, m: Halls, item: Item)
    requires item.Lists? && ListOk(info, m, item.mode, item.chan, item.chunks)
    ensures ItemOk(info, m, item)
  {}

  predicate CutsOk(info: Info, letters: string, symbols: string, a: Net, b: Net, cuts: Cuts)
    requires Sound(a) && Sound(b)
  {
    && |cuts| == |b.channels|
    && forall x :: 0 <= x < |b.channels| && ChanKey(b, x) !in Rooms(a) ==> CutOk(info, letters, symbols, b, x, cuts[x])
  }

  lemma {:induction false} NewEffect(info: Info, p: Peer, own: string, letters: string, symbols: string, a: Net,
                                     b: Net, x: nat,
                                     cuts: Cuts)
    requires DiffOk(info, p, own, a, b) && CutsOk(info, letters, symbols, a, b, cuts) && x <= |b.channels|
    requires QuietsLegible(NewItems(p, own, a, b, x, cuts))
    ensures AllOk(info, Almost(a, b, 0), MeKey(a), NewItems(p, own, a, b, x, cuts))
    ensures EffectAll(info, Almost(a, b, 0), MeKey(a), NewItems(p, own, a, b, x, cuts)) == Almost(a, b, x)
  {
    hide AllOk, EffectAll, Almost, Sound, Distinct, QuietsLegible, Rooms, Seats, ChanKey, Compatible, CutOk;
    var me, start := MeKey(a), Almost(a, b, 0);
    if x == 0 {
      NoEffect(info, start, me);
    } else {
      var m, before, y := Almost(a, b, x - 1), NewItems(p, own, a, b, x - 1, cuts), x - 1;
      var known := KnownChan(a, b.channels[y].data.name);
      KnownKey(a, b.channels[y].data.name);
      ChanKeyIs(b, y);
      AlmostStep(a, b, y);
      var items := if known then [] else OpenItems(p, own, b, y, cuts[y]);
      LegibleParts(before, items);
      NewEffect(info, p, own, letters, symbols, a, b, y, cuts);
      if known {
        NoEffect(info, m, me);
      } else {
        OpenEffect(info, m, me, p, own, letters, symbols, b, y, cuts[y]);
      }
      EffectSplit(info, start, me, before, items);
    }
  }

  lemma HalfwayStarts(a: Net, b: Net)
    requires Sound(a) && Sound(b)
    ensures Halfway(a, b, 0) == Rooms(a)
  {
    hide Rooms, Sound, Done;
    forall c: string
      ensures !Done(a, 0, c)
    {
      AllDone(a, c);
    }
  }

  /** Every line may be sent where it is sent, and the effects lead to the new state. */
  lemma AllOkDiff(s: Net, info: Info, p: Peer, own: string, letters: string, symbols: string, b: Net, cuts: Cuts)
    requires DiffOk(info, p, own, s, b) && CutsOk(info, letters, symbols, s, b, cuts)
    requires QuietsLegible(DiffItems(p, own, s, b, cuts))
    ensures AllOk(info, Rooms(s), MeKey(s), DiffItems(p, own, s, b, cuts))
    ensures EffectAll(info, Rooms(s), MeKey(s), DiffItems(p, own, s, b, cuts)) == Rooms(b)
  {
    var me, n := MeKey(s), |b.channels|;
    hide DiffOk, CutsOk, AllOk, EffectAll, Almost, Halfway, Sound, Distinct, QuietsLegible, Rooms, OldItems, NewItems;
    var gone, come := OldItems(p, own, s, b, 0), NewItems(p, own, s, b, n, cuts);
    LegibleParts(gone, come);
    HalfwayStarts(s, b);
    AlmostEnds(s, b);
    OldEffect(info, p, own, s, b, 0);
    NewEffect(info, p, own, letters, symbols, s, b, n, cuts);
    EffectSplit(info, Rooms(s), me, gone, come);
  }

  /** The lines of client_send_state_diff, printed, parsed and handled by a receiver in the old
      state, leave it on the new state's channels, each with the new state's members. */
  lemma DiffReachesNew(s: Net, info: Info, p: Peer, own: string, letters: string, symbols: string, b: Net, cuts: Cuts,
                       now: int)
    requires DiffOk(info, p, own, s, b) && CutsOk(info, letters, symbols, s, b, cuts) && Closed(s) && PeerOk(p)
    requires QuietsLegible(DiffItems(p, own, s, b, cuts))
    ensures var ls := AllLines(p, DiffItems(p, own, s, b, cuts));
            && Legible(ls) && Accepted(s, Heard(ls, now))
            && Rooms(Run(s, Heard(ls, now))) == Rooms(b)
  {
    assert Represents(s, info, Rooms(s), MeKey(s));
    AllOkDiff(s, info, p, own, letters, symbols, b, cuts);
    hide DiffOk, CutsOk, Closed, AllOk, EffectAll, Sound, Distinct, QuietsLegible, Rooms, DiffItems;
    ItemsHeard(s, info, Rooms(s), MeKey(s), p, DiffItems(p, own, s, b, cuts), now);
  }

  // ------------------------------------------------------------------------ the loops

  lemma {:induction false} AllLinesSplit(p: Peer, x: seq<Item>, y: seq<Item>)
    ensures AllLines(p, x + y) == AllLines(p, x) + AllLines(p, y)
  {
    hide LinesOf;
    if x == [] {
      assert x + y == y;
    } else {
      assert (x + y)[0] == x[0] && (x + y)[1..] == x[1..] + y;
      AllLinesSplit(p, x[1..], y);
      assert LinesOf(p, x[0]) + (AllLines(p, x[1..]) + AllLines(p, y)) ==
          LinesOf(p, x[0]) + AllLines(p, x[1..]) + AllLines(p, y);
    }
  }

  lemma AllLinesSnoc(p: Peer, x: seq<Item>, item: Item)
    ensures AllLines(p, x + [item]) == AllLines(p, x) + LinesOf(p, item)
  {
    hide LinesOf;
    AllLinesSplit(p, x, [item]);
    assert [item][1..] == [];
    assert AllLines(p, [item]) == LinesOf(p, item) + [];
  }

  /** The first loop of client_send_channel_state_diff. */
  method SendLeaves(p: Peer, a: Net, i: nat, b: Net, x: nat) returns (sent: seq<Line>)
    requires Sound(a) && Sound(b) && i < |a.channels| && x < |b.channels|
    ensures sent == AllLines(p, LeaveItems(a, i, b, x, 0))
  {
    hide Sound, AllLines, FindMask, LinesOf;
    ghost var items: seq<Item> := [];
    sent := [];
    NoLines(p);
    var j := 0;
    while j < |a.channels[i].members|
      invariant j <= |a.channels[i].members| && sent == AllLines(p, items)
      invariant items + LeaveItems(a, i, b, x, j) == LeaveItems(a, i, b, x, 0)
    {
      MembersKnownAt(a, i, j);
      var mask := MaskOf(a.people[a.channels[i].members[j].who]);
      var y := FindMask(b, x, mask);
      var item := Leaves(mask, b.channels[x].data.name);
      if y < |b.channels[x].members| {
        MembersKnownAt(b, x, y);
        item := Renames(mask, b.people[b.channels[x].members[y].who].nick);
      }
      AllLinesSnoc(p, items, item);
      Regroup(items, [item], LeaveItems(a, i, b, x, j + 1));
      sent, items := sent + LinesOf(p, item), items + [item];
      j := j + 1;
    }
    assert items + [] == items;
  }

  /** The second loop. */
  method SendJoins(p: Peer, a: Net, i: nat, b: Net, x: nat) returns (sent: seq<Line>)
    requires Sound(a) && Sound(b) && i < |a.channels| && x < |b.channels|
    ensures sent == AllLines(p, JoinItems(a, i, b, x, 0))
  {
    hide Sound, AllLines, FindMember, LinesOf;
    ghost var items: seq<Item> := [];
    sent := [];
    NoLines(p);
    var j := 0;
    while j < |b.channels[x].members|
      invariant j <= |b.channels[x].members| && sent == AllLines(p, items)
      invariant items + JoinItems(a, i, b, x, j) == JoinItems(a, i, b, x, 0)
    {
      MembersKnownAt(b, x, j);
      var n := b.people[b.channels[x].members[j].who];
      if FindMember(a, i, n.nick) == |a.channels[i].members| {
        var item := Joins(MaskOf(n), b.channels[x].data.name);
        AllLinesSnoc(p, items, item);
        Regroup(items, [item], JoinItems(a, i, b, x, j + 1));
        sent, items := sent + LinesOf(p, item), items + [item];
      } else {
        assert [] + JoinItems(a, i, b, x, j + 1) == JoinItems(a, i, b, x, j + 1);
      }
      j := j + 1;
    }
    assert items + [] == items;
  }

  lemma Regroup(x: seq<Item>, y: seq<Item>, z: seq<Item>)
    ensures x + (y + z) == x + y + z
  {}

  /** client_send_channel_state_diff, up to the socket. */
  method SendChannelDiff(p: Peer, a: Net, i: nat, b: Net, x: nat) returns (sent: seq<Line>)
    requires Sound(a) && Sound(b) && i < |a.channels| && x < |b.channels|
    ensures sent == AllLines(p, ChannelItems(p, a, i, b, x))
  {
    hide Sound, AllLines, LeaveItems, JoinItems, TopicItems, ModeItems;
    ghost var leave, join := LeaveItems(a, i, b, x, 0), JoinItems(a, i, b, x, 0);
    var quiet := TopicItems(a.channels[i].data, b.channels[x].data) +
        ModeItems(p, a.channels[i].data, b.channels[x].data);
    var gone := SendLeaves(p, a, i, b, x);
    var come := SendJoins(p, a, i, b, x);
    AllLinesSplit(p, leave, join);
    AllLinesSplit(p, leave + join, quiet);
    sent := gone + come + AllLines(p, quiet);
  }

  lemma NoLines(p: Peer)
    ensures AllLines(p, []) == []
  {}

  lemma MembersKnownAt(s: Net, i: nat, j: nat)
    requires Sound(s) && i < |s.channels| && j < |s.channels[i].members|
    ensures s.channels[i].members[j].who < |s.people| && MemberNick(s, i, j) == s.people[s.channels[i].members[j].who]
  {}

  /** client_send_channel_state, up to the socket. */
  method SendChannelState(p: Peer, own: string, info: Info, b: Net, x: nat)
    returns (sent: seq<Line>, ghost chunks: seq<seq<string>>)
    requires Sound(b) && x < |b.channels|
    requires EachFits(p, b.channels[x].data.mode, b.channels[x].data.name, AllShown(info, SeatsOf(b, x)))
    ensures sent == AllLines(p, OpenItems(p, own, b, x, chunks))
    ensures Chunked(chunks) && Flattened(chunks) == AllShown(info, SeatsOf(b, x))
  {
    hide Sound, AllLines, TopicInfo, AllShown, SeatsOf, EachFits, OpenItems, EndLine, Lines;
    var d := b.channels[x].data;
    var names;
    names, chunks := NamesList(p, info, d.mode, d.name, SeatsOf(b, x));
    OpenLines(p, own, b, x, chunks);
    sent := [Line(Some(own), ["JOIN", d.name], ColonUnknown)] + AllLines(p, TopicInfo(p, d)) + names;
  }

  lemma OpenLines(p: Peer, own: string, b: Net, x: nat, chunks: seq<seq<string>>)
    requires x < |b.channels| && Chunked(chunks)
    ensures var d := b.channels[x].data;
            AllLines(p, OpenItems(p, own, b, x, chunks)) ==
            [Line(Some(own), ["JOIN", d.name], ColonUnknown)] + AllLines(p, TopicInfo(p, d))
            + (Lines(p, d.mode, d.name, chunks) + [EndLine(p, d.name)])
  {
    hide AllLines, TopicInfo, EndLine, Lines;
    var d := b.channels[x].data;
    var join, list := Joins(own, d.name), Lists(d.mode, d.name, chunks);
    NoLines(p);
    AllLinesSnoc(p, [], join);
    assert [] + [join] == [join];
    AllLinesSplit(p, [join], TopicInfo(p, d));
    AllLinesSnoc(p, [join] + TopicInfo(p, d), list);
  }

  /** client_send_state_diff, up to the socket: the lines are those the proof is about. */
  method SendStateDiff(p: Peer, own: string, info: Info, a: Net, b: Net) returns (sent: seq<Line>, ghost cuts: Cuts)
    requires Sound(a) && Sound(b)
    requires forall x :: 0 <= x < |b.channels| ==>
               EachFits(p, b.channels[x].data.mode, b.channels[x].data.name, AllShown(info, SeatsOf(b, x)))
    ensures |cuts| == |b.channels| && sent == AllLines(p, DiffItems(p, own, a, b, cuts))
    ensures forall x :: 0 <= x < |b.channels| && !KnownChan(a, b.channels[x].data.name) ==>
              Chunked(cuts[x]) && Flattened(cuts[x]) == AllShown(info, SeatsOf(b, x))
  {
    hide Sound, AllLines, FindChan, ChannelItems, OpenItems, AllShown, SeatsOf, EachFits, LinesOf;
    ghost var items: seq<Item> := [];
    sent, cuts := [], [];
    NoLines(p);
    var i := 0;
    while i < |a.channels|
      invariant i <= |a.channels| && sent == AllLines(p, items)
      invariant items + OldItems(p, own, a, b, i) == OldItems(p, own, a, b, 0)
    {
      var x := FindChan(b, a.channels[i].data.name);
      ghost var rest := OldItems(p, own, a, b, i + 1);
      if x < |b.channels| {
        var lines := SendChannelDiff(p, a, i, b, x);
        AllLinesSplit(p, items, ChannelItems(p, a, i, b, x));
        assert items + (ChannelItems(p, a, i, b, x) + rest) == items + ChannelItems(p, a, i, b, x) + rest;
        sent, items := sent + lines, items + ChannelItems(p, a, i, b, x);
      } else {
        var item := Leaves(own, a.channels[i].data.name);
        AllLinesSnoc(p, items, item);
        assert items + ([item] + rest) == items + [item] + rest;
        sent, items := sent + LinesOf(p, item), items + [item];
      }
      i := i + 1;
    }
    ghost var gone := OldItems(p, own, a, b, 0);
    assert items == gone;
    i := 0;
    while i < |b.channels|
      invariant i <= |b.channels| && |cuts| == i && sent == AllLines(p, gone + NewItems(p, own, a, b, i, cuts))
      invariant forall x :: 0 <= x < i && !KnownChan(a, b.channels[x].data.name) ==>
                  Chunked(cuts[x]) && Flattened(cuts[x]) == AllShown(info, SeatsOf(b, x))
    {
      ghost var before, chunks := gone + NewItems(p, own, a, b, i, cuts), [];
      if KnownChan(a, b.channels[i].data.name) {
        assert before + [] == before;
      } else {
        var lines;
        lines, chunks := SendChannelState(p, own, info, b, i);
        AllLinesSplit(p, before, OpenItems(p, own, b, i, chunks));
        sent := sent + lines;
      }
      NewItemsGrow(p, own, a, b, i, cuts, chunks);
      cuts := cuts + [chunks];
      assert gone + NewItems(p, own, a, b, i + 1, cuts) ==
             before + (if KnownChan(a, b.channels[i].data.name) then [] else OpenItems(p, own, b, i, chunks));
      i := i + 1;
    }
  }

  lemma {:induction false} NewItemsGrow(p: Peer, own: string, a: Net, b: Net, x: nat, cuts: Cuts,
                                        chunks: seq<seq<string>>)
    requires x <= |b.channels| && x <= |cuts|
    ensures NewItems(p, own, a, b, x, cuts + [chunks]) == NewItems(p, own, a, b, x, cuts)
  {
    hide OpenItems, KnownChan;
    if x > 0 { NewItemsGrow(p, own, a, b, x - 1, cuts, chunks); }
  }
}
