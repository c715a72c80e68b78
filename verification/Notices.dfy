/** What a receiver knows of a channel besides its members, over a whole client_send_state_diff: the
    topic, who set it and when, and the flags. */
module Notices {
  import opened Base
  import opened Casemap
  import opened Info
  import opened Line
  import opened Texts
  import opened State
  import opened Handlers
  import opened Unique
  import opened Modes
  import opened Effects
  import opened Presence
  import opened Marshal
  import opened Names
  import opened Seating
  import opened Occupancy
  import opened Sending
  import opened Diff
  import opened Telling

  datatype Notice = Notice(topic: Option<string>, setter: Option<string>, time: int, modes: set<char>)

  const BLANK := Notice(None, None, 0, {})

  function NoticeOf(d: ChanData): (v: Notice) { Notice(d.topic, d.topicSetBy, d.topicSetTime, d.modes) }

  /** What is known of the channel of that name, if it is known. */
  function At(s: Net, chan: string): (v: Option<Notice>) {
    var i := FindChan(s, chan); if i < |s.channels| then Some(NoticeOf(s.channels[i].data)) else None
  }

  // -------------------------------------------------------------------- what an item tells

  /** What a topic or mode line makes of it. */
  function Heeded(info: Info, v: Notice, l: Line, now: int): (r: Notice)
    requires |l.args| >= 1 && ChanmodesOk(info)
  {
    var a := l.args;
    if a[0] == "TOPIC" && |a| > 2 && l.origin.Some? then
      v.(topic := Some(a[2]), setter := Some(NickPart(l.origin.value)), time := now)
    else if a[0] == "332" && |a| > 3 then v.(topic := Some(a[3]))
    else if a[0] == "333" && |a| > 4 then v.(setter := Some(a[3]), time := StrtolAuto(a[4]))
    else if a[0] == "MODE" && |a| > 2 && a[2] != "" then v.(modes := v.modes + FlagsHeeded(info, a[2][1..]))
    else v
  }

  /** The channel such a line is about. */
  function Aim(l: Line): (name: string)
    requires |l.args| >= 2
  {
    if (l.args[0] == "332" || l.args[0] == "333") && |l.args| > 2 then l.args[2] else l.args[1]
  }

  function NoticeStep(info: Info, me: string, item: Item, now: int, chan: string,
                      v: Option<Notice>): (r: Option<Notice>)
    requires ChanmodesOk(info) && (item.Quiet? ==> |item.line.args| >= 2)
  {
    match item
    case Leaves(mask, c) => if Eq(info, c, chan) && Folded(info, NickPart(mask)) == me then None else v
    case Joins(_, c) => if Eq(info, c, chan) && v.None? then Some(BLANK) else v
    case Renames(_, _) => v
    case Lists(_, _, _) => v
    case Quiet(l) => if v.Some? && Eq(info, Aim(l), chan) then Some(Heeded(info, v.value, l, now)) else v
  }

  // --------------------------------------------------------------- what the receiver makes of it

  lemma SameFound(s: Net, name: string, chan: string)
    requires Eq(s.info, name, chan)
    ensures FindChan(s, name) == FindChan(s, chan)
  {
    SameFirst(s.info.casemapping, ChanNames(s.channels), name, chan);
  }

  lemma {:induction false} SameFirst(cm: Casemapping, names: seq<string>, a: string, b: string)
    requires Same(cm, a, b)
    ensures FirstMatch(cm, names, a) == FirstMatch(cm, names, b)
  {
    if names != [] { SameFirst(cm, names[1..], a, b); }
  }

  lemma OtherFound(s: Net, name: string, chan: string)
    requires !Eq(s.info, name, chan) && KnownChan(s, name)
    ensures FindChan(s, name) != FindChan(s, chan)
  {
    var names := ChanNames(s.channels);
    assert Same(s.info.casemapping, names[FindChan(s, name)], name);
  }

  /** Data written to one channel are known of that one. */
  lemma AtRetold(s: Net, name: string, d: ChanData, chan: string)
    requires KnownChan(s, name) ==> d.name == DataOf(s, name).name
    ensures At(Retold(s, name, d), chan) ==
            if KnownChan(s, name) && Eq(s.info, name, chan) then Some(NoticeOf(d)) else At(s, chan)
  {
    var r := Retold(s, name, d);
    if KnownChan(s, name) {
      assert ChanNames(r.channels) == ChanNames(s.channels);
      assert FindChan(r, chan) == FindChan(s, chan);
      if Eq(s.info, name, chan) { SameFound(s, name, chan); } else { OtherFound(s, name, chan); }
    }
  }

  /** The same names and data in the same order. */
  lemma AtSame(s: Net, r: Net, chan: string)
    requires SameData(s, r) && r.info == s.info
    ensures At(r, chan) == At(s, chan)
  {
    assert ChanNames(r.channels) == ChanNames(s.channels);
  }

  // ------------------------------------------------------------------------- lines about members

  /** A channel gone: the rest are known as before. */
  lemma AtDropped(s: Net, i: nat, chan: string)
    requires Sound(s) && Distinct(s) && i < |s.channels|
    ensures At(DropChan(s, i), chan) == if Eq(s.info, s.channels[i].data.name, chan) then None else At(s, chan)
  {
    DroppedData(s, i);
    var names := ChanNames(s.channels);
    assert DistinctNames(s.info.casemapping, names) && names[i] == s.channels[i].data.name;
    FoundWithout(s.info.casemapping, names, i, chan);
    hide DropChan, Sound, Distinct, DistinctNames, FirstMatch, Without, FoldString, Top, At;
    AtOneLess(s, DropChan(s, i), i, chan);
  }

  /** The same channels but for one: what is found besides that one is known as before. */
  lemma AtOneLess(s: Net, r: Net, i: nat, chan: string)
    requires |r.channels| == |s.channels| - 1 && i < |s.channels|
    requires forall x :: 0 <= x < |r.channels| ==> r.channels[x].data == s.channels[if x < i then x else x + 1].data
    requires var f, g := FindChan(s, chan), FindChan(r, chan);
             if Eq(s.info, s.channels[i].data.name, chan) then g == |r.channels|
             else if f == |s.channels| then g == |r.channels| else f != i && g == if f < i then f else f - 1
    ensures At(r, chan) == if Eq(s.info, s.channels[i].data.name, chan) then None else At(s, chan)
  {
    hide FindChan, Eq;
  }

  lemma DroppedData(s: Net, i: nat)
    requires Sound(s) && i < |s.channels|
    ensures var r := DropChan(s, i);
            && r.info == s.info && |r.channels| == |s.channels| - 1
            && ChanNames(r.channels) == Without(ChanNames(s.channels), i)
            && forall x :: 0 <= x < |r.channels| ==> r.channels[x].data == s.channels[if x < i then x else x + 1].data
  {
    ClearSameData(s, i);
    hide ClearMembers, Sound;
  }

  lemma FoundWithout(cm: Casemapping, names: seq<string>, i: nat, name: string)
    requires i < |names| && DistinctNames(cm, names)
    ensures var f, g := FirstMatch(cm, names, name), FirstMatch(cm, Without(names, i), name);
            && (Same(cm, names[i], name) ==> g == |names| - 1)
            && (!Same(cm, names[i], name) ==>
                  (f == |names| ==> g == |names| - 1) && (f < |names| ==> f != i && g == if f < i then f else f - 1))
  {
    if Same(cm, names[i], name) { OnlyOneGone(cm, names, i, name); } else { OtherGone(cm, names, i, name); }
  }

  lemma OnlyOneGone(cm: Casemapping, names: seq<string>, i: nat, name: string)
    requires i < |names| && DistinctNames(cm, names) && Same(cm, names[i], name)
    ensures FirstMatch(cm, Without(names, i), name) == |names| - 1
  {
    var rest := Without(names, i);
    forall x | 0 <= x < |rest|
      ensures !Same(cm, rest[x], name)
    {
      var y := if x < i then x else x + 1;
      assert rest[x] == names[y] && !Same(cm, names[if y < i then y else i], names[if y < i then i else y]);
    }
  }

  lemma OtherGone(cm: Casemapping, names: seq<string>, i: nat, name: string)
    requires i < |names| && !Same(cm, names[i], name)
    ensures var f, g := FirstMatch(cm, names, name), FirstMatch(cm, Without(names, i), name);
            (f == |names| ==> g == |names| - 1) && (f < |names| ==> f != i && g == if f < i then f else f - 1)
  {
    hide Same;
    var rest, f := Without(names, i), FirstMatch(cm, names, name);
    assert forall x :: 0 <= x < |rest| ==> rest[x] == names[if x < i then x else x + 1];
    if f < |names| {
      FirstIs(cm, rest, name, if f < i then f else f - 1);
    } else {
      FirstIs(cm, rest, name, |rest|);
    }
  }

  lemma FirstIs(cm: Casemapping, names: seq<string>, name: string, f: nat)
    requires f <= |names| && (forall x :: 0 <= x < f ==> !Same(cm, names[x], name))
    requires f < |names| ==> Same(cm, names[f], name)
    ensures FirstMatch(cm, names, name) == f
  {
    hide Same;
  }

  lemma PartNoted(s: Net, name: string, nick: string, chan: string)
    requires Sound(s) && Distinct(s)
    ensures At(PartOne(s, name, nick), chan) == if IsMe(s, nick) && Eq(s.info, name, chan) then None else At(s, chan)
  {
    var i := FindChan(s, name);
    if i < |s.channels| {
      var j := FindMember(s, i, nick);
      var s1 := if j < |s.channels[i].members| then DropMember(s, i, j) else s;
      assert Same(s.info.casemapping, ChanNames(s.channels)[i], name);
      if j < |s.channels[i].members| {
        DropMemberSameData(s, i, j);
        DropMemberKeeps(s, i, j);
      }
      hide DropMember, DropChan, Sound, FindMember;
      AtSame(s, s1, chan);
      if IsMe(s1, nick) { AtDropped(s1, i, chan); }
    } else if Eq(s.info, name, chan) {
      SameFound(s, name, chan);
    }
  }

  lemma JoinNoted(s: Net, name: string, origin: string, chan: string)
    requires Sound(s) && '!' in origin && OnePrefix(s.info, NickPart(origin))
    ensures At(JoinOne(s, name, origin), chan) ==
            if At(s, chan).None? && Eq(s.info, name, chan) then Some(BLANK) else At(s, chan)
  {
    hide SetHostmask, NickPart;
    var s1, i := AddChan(s, name), FindChan(s, name);
    AddMemberSameData(s1, i, NickPart(origin));
    hide AddMember, Sound, OnePrefix;
    AtSame(s1, JoinOne(s, name, origin), chan);
    AddChanNoted(s, name, chan);
  }

  lemma AddChanNoted(s: Net, name: string, chan: string)
    ensures At(AddChan(s, name), chan) ==
            if At(s, chan).None? && Eq(s.info, name, chan) then Some(BLANK) else At(s, chan)
  {
    var r := AddChan(s, name);
    if KnownChan(s, name) {
      if Eq(s.info, name, chan) { SameFound(s, name, chan); }
    } else {
      var a, b, f := ChanNames(s.channels), ChanNames(r.channels), FindChan(s, chan);
      assert b == a + [name] && b[|a|] == name && forall x :: 0 <= x < |a| ==> b[x] == a[x];
      if f < |a| {
        assert FindChan(r, chan) == f;
      }
    }
  }

  // ---------------------------------------------------------------------- every item, as heard

  /** A topic or mode line as the sender makes them, with texts that get through. */
  predicate SayOk(info: Info, l: Line) {
    var a := l.args;
    && |a| >= 2 && l.colon == ColonUnknown && (l.origin.Some? ==> ' ' !in l.origin.value) && ChanmodesOk(info)
    && MiddleArg(a[1])
    && (|| (a[0] == "TOPIC" && |a| <= 3 && (|a| > 2 ==> NoBreak(a[2])))
        || (a[0] == "332" && |a| == 4 && MiddleArg(a[2]) && NoBreak(a[3]))
        || (a[0] == "333" && |a| == 5 && MiddleArg(a[2]) && MiddleArg(a[3]) && a[4] == DecInt(StrtolAuto(a[4])))
        || (a[0] == "MODE" && |a| <= 3 && l.origin.Some? && info.chantypes.Some? &&
            (a[1] == "" || a[1][0] in info.chantypes.value) &&
            (|a| > 2 ==> a[2] != "" && a[2][0] == '+' && PlainText(a[2][1..]))))
  }

  predicate ItemSays(info: Info, item: Item) { item.Quiet? ==> SayOk(info, item.line) }

  lemma LeavesNoted(s: Net, mask: string, c: string, now: int, chan: string)
    requires Sound(s) && Distinct(s) && PlainMask(s.info, mask) && PlainChan(c)
    ensures var ls := [Line(Some(mask), ["PART", c], ColonUnknown)];
            && Legible(ls) && Accepted(s, Heard(ls, now))
            && At(Run(s, Heard(ls, now)), chan) ==
               if Eq(s.info, c, chan) && Folded(s.info, NickPart(mask)) == MeKey(s) then None else At(s, chan)
  {
    hide Distinct, PartOne, Run, Accepted, Accepts, Step;
    var l := Line(Some(mask), ["PART", c], ColonUnknown);
    SimpleLineWellFormed(mask, "PART", c);
    OneLineHeard(s, l, now);
    PartStep(s, mask, c, ColonFlag(PrintsColon(l)), now);
    IsMeKey(s, NickPart(mask));
    PartNoted(s, c, NickPart(mask), chan);
  }

  lemma JoinsNoted(s: Net, mask: string, c: string, now: int, chan: string)
    requires Sound(s) && PlainMask(s.info, mask) && PlainChan(c)
    ensures var ls := [Line(Some(mask), ["JOIN", c], ColonUnknown)];
            && Legible(ls) && Accepted(s, Heard(ls, now))
            && At(Run(s, Heard(ls, now)), chan) ==
               if At(s, chan).None? && Eq(s.info, c, chan) then Some(BLANK) else At(s, chan)
  {
    hide JoinOne, Run, Accepted, Accepts, Step;
    var l := Line(Some(mask), ["JOIN", c], ColonUnknown);
    SimpleLineWellFormed(mask, "JOIN", c);
    OneLineHeard(s, l, now);
    JoinStep(s, mask, c, ColonFlag(PrintsColon(l)), now);
    JoinNoted(s, c, mask, chan);
  }

  lemma RenamesNoted(s: Net, mask: string, to: string, now: int, chan: string)
    requires Sound(s) && PlainMask(s.info, mask) && MiddleArg(to)
    ensures var ls := [Line(Some(mask), ["NICK", to], ColonUnknown)];
            && Legible(ls) && Accepted(s, Heard(ls, now)) && At(Run(s, Heard(ls, now)), chan) == At(s, chan)
  {
    hide Run, Accepted, Accepts, Step;
    var l := Line(Some(mask), ["NICK", to], ColonUnknown);
    SimpleLineWellFormed(mask, "NICK", to);
    OneLineHeard(s, l, now);
    NickStep(s, mask, to, ColonFlag(PrintsColon(l)), now);
    AtSame(s, RenameStep(s, NickPart(mask), to), chan);
  }

  /** Topic and mode lines. */
  lemma SayNoted(s: Net, l: Line, now: int, chan: string)
    requires Sound(s) && SayOk(s.info, l) && (l.args[0] == "TOPIC" && |l.args| > 2 ==> KnownChan(s, l.args[1]))
    ensures Legible([l]) && Accepted(s, Heard([l], now))
    ensures At(Run(s, Heard([l], now)), chan) ==
            if At(s, chan).Some? && Eq(s.info, Aim(l), chan) then Some(Heeded(s.info, At(s, chan).value, l, now))
            else At(s, chan)
  {
    var a := l.args;
    hide Accepted, Run, FlagsHeeded, ChanmodesOk, MiddleArg, PlainText, NickPart, StrtolAuto, FindChan, DecInt;
    if a[0] == "TOPIC" {
      assert a == ["TOPIC", a[1]] + (if |a| > 2 then [a[2]] else []);
      TopicChangeHeard(s, l.origin, a[1], if |a| > 2 then Some(a[2]) else None, now);
    } else if a[0] == "332" {
      assert a == ["332", a[1], a[2], a[3]];
      TopicHeard(s, Peer(l.origin, a[1]), a[2], a[3], now);
    } else if a[0] == "333" {
      assert a == ["333", a[1], a[2], a[3], DecInt(StrtolAuto(a[4]))];
      SetterHeard(s, Peer(l.origin, a[1]), a[2], a[3], StrtolAuto(a[4]), now);
    } else if |a| > 2 {
      assert "+" + a[2][1..] == a[2];
      assert a == ["MODE", a[1], "+" + a[2][1..]];
      LettersHeard(s, l.origin, a[1], a[2][1..], now);
    } else {
      assert a == ["MODE", a[1]];
      NoLettersHeard(s, l.origin, a[1], now);
    }
    SaidIs(s, l, now, chan);
  }

  /** What is written to the channel aimed at. */
  function SaidData(info: Info, d: ChanData, l: Line, now: int): (r: ChanData)
    requires |l.args| >= 1 && ChanmodesOk(info)
  {
    var v := Heeded(info, NoticeOf(d), l, now);
    d.(topic := v.topic, topicSetBy := v.setter, topicSetTime := v.time, modes := v.modes)
  }

  lemma SaidIs(s: Net, l: Line, now: int, chan: string)
    requires |l.args| >= 2 && ChanmodesOk(s.info)
    ensures At(Retold(s, Aim(l), SaidData(s.info, DataOf(s, Aim(l)), l, now)), chan) ==
            if At(s, chan).Some? && Eq(s.info, Aim(l), chan) then Some(Heeded(s.info, At(s, chan).value, l, now))
            else At(s, chan)
  {
    hide Heeded, ChanmodesOk;
    var name := Aim(l);
    AtRetold(s, name, SaidData(s.info, DataOf(s, name), l, now), chan);
    if Eq(s.info, name, chan) { SameFound(s, name, chan); }
  }

  predicate SameNotices(s: Net, r: Net) {
    |r.channels| == |s.channels| && r.info == s.info && forall x :: 0 <= x < |s.channels| ==>
      r.channels[x].data.name == s.channels[x].data.name && NoticeOf(r.channels[x].data) == NoticeOf(s.channels[x].data)
  }

  lemma AtSameNotices(s: Net, r: Net, chan: string)
    requires SameNotices(s, r)
    ensures At(r, chan) == At(s, chan)
  {
    assert ChanNames(r.channels) == ChanNames(s.channels);
  }

  lemma ListSameNotice(s: Net, i: nat, mode: char, names: seq<string>)
    requires Sound(s) && i < |s.channels| && AllOnePrefix(s.info, names)
    ensures SameNotices(s, AddNames(OpenNames(s, i, ModeText(mode)), i, names))
  {
    hide Sound, AllOnePrefix, AddNames, OpenNames;
    var o := OpenNames(s, i, ModeText(mode));
    ListSameData(s, i, mode, names);
    OpenedData(s, i, ModeText(mode));
    AddNamesData(o, i, names);
  }

  /** A member list tells nothing else. */
  lemma ListsNoted(s: Net, p: Peer, mode: char, c: string, chunks: seq<seq<string>>, i: nat, now: int, chan: string)
    requires Sound(s) && i == FindChan(s, c) < |s.channels| && PeerOk(p) && ChannelOk(mode, c) && Chunked(chunks)
    requires forall k :: 0 <= k < |chunks| ==> PlainNames(chunks[k]) && AllOnePrefix(s.info, chunks[k])
    ensures var ls := Lines(p, mode, c, chunks) + [EndLine(p, c)];
            Legible(ls) && Accepted(s, Heard(ls, now)) && At(Run(s, Heard(ls, now)), chan) == At(s, chan)
  {
    hide Sound, Run, Accepted, PlainNames, AllOnePrefix, OpenNames, AddNames, FindChan, Legible, Heard;
    HeardIsTold(s, p, mode, c, chunks, i, now);
    var t := Names.Told(s, i, mode, chunks);
    assert SameNotices(s, t) by {
      if chunks != [] {
        ToldAll(s, i, mode, chunks);
        ListSameNotice(s, i, mode, Flattened(chunks));
      }
    }
    hide Names.Told;
    AtSameNotices(s, WithChan(t, i, t.channels[i].data.(namreplyStarted := false)), chan);
  }

  /** Every item tells the receiver what its step says. */
  lemma ItemNoted(s: Net, info: Info, m: Halls, me: string, p: Peer, item: Item, now: int, chan: string)
    requires Represents(s, info, m, me) && ItemOk(info, m, item) && ItemSays(info, item)
    requires PeerOk(p) && ChanmodesOk(info)
    ensures var ls := LinesOf(p, item);
            && Legible(ls) && Accepted(s, Heard(ls, now))
            && At(Run(s, Heard(ls, now)), chan) == NoticeStep(info, me, item, now, chan, At(s, chan))
  {
    hide Distinct, PlainMask, PlainChan, Accepted, Run, Legible, Heard, At, Heeded, ChanmodesOk, Rooms, Closed, Sound;
    match item {
      case Leaves(mask, c) => LeavesNoted(s, mask, c, now, chan);
      case Joins(mask, c) => JoinsNoted(s, mask, c, now, chan);
      case Renames(mask, to) => RenamesNoted(s, mask, to, now, chan);
      case Quiet(l) =>
        TopicKnown(s, info, m, me, l);
        SayNoted(s, l, now, chan);
      case Lists(mode, c, chunks) =>
        KnownKey(s, c);
        ListsNoted(s, p, mode, c, chunks, FindChan(s, c), now, chan);
    }
  }

  lemma TopicKnown(s: Net, info: Info, m: Halls, me: string, l: Line)
    requires Represents(s, info, m, me) && QuietOk(info, m, l) && SayOk(info, l)
    ensures l.args[0] == "TOPIC" && |l.args| > 2 ==> KnownChan(s, l.args[1])
  {
    if l.args[0] == "TOPIC" && |l.args| > 2 {
      AsciiEqRefl("TOPIC");
      assert CommandOf(l) == TOPIC by { WordNamed("TOPIC", "TOPIC"); }
      KnownKey(s, l.args[1]);
    }
  }

  // --------------------------------------------------------------------------- all the items

  predicate AllSay(info: Info, items: seq<Item>) { forall k :: 0 <= k < |items| ==> ItemSays(info, items[k]) }

  function NoticeAll(info: Info, me: string, items: seq<Item>, now: int, chan: string,
                     v: Option<Notice>): (r: Option<Notice>)
    requires ChanmodesOk(info) && AllSay(info, items)
    decreases |items|
  {
    if items == [] then v
    else
      assert ItemSays(info, items[0]);
      NoticeAll(info, me, items[1..], now, chan, NoticeStep(info, me, items[0], now, chan, v))
  }

  lemma {:induction false} NoticeSplit(info: Info, me: string, x: seq<Item>, y: seq<Item>, now: int, chan: string,
                                       v: Option<Notice>)
    requires ChanmodesOk(info) && AllSay(info, x) && AllSay(info, y)
    ensures AllSay(info, x + y)
    ensures NoticeAll(info, me, x + y, now, chan, v) ==
            NoticeAll(info, me, y, now, chan, NoticeAll(info, me, x, now, chan, v))
    decreases |x|
  {
    hide ItemSays, NoticeStep, ChanmodesOk;
    if x == [] {
      assert x + y == y;
    } else {
      assert (x + y)[1..] == x[1..] + y && (x + y)[0] == x[0];
      var w := Stepped(info, me, x[0], now, chan, v);
      NoticeSplit(info, me, x[1..], y, now, chan, w);
    }
  }

  function Stepped(info: Info, me: string, item: Item, now: int, chan: string, v: Option<Notice>): (r: Option<Notice>)
    requires ChanmodesOk(info) && ItemSays(info, item)
  {
    NoticeStep(info, me, item, now, chan, v)
  }

  /** A receiver that parses the text of all the lines knows what the steps say. */
  lemma {:induction false} ItemsNoted(s: Net, info: Info, m: Halls, me: string, p: Peer, items: seq<Item>, now: int,
                                      chan: string)
    requires Represents(s, info, m, me) && AllOk(info, m, me, items) && AllSay(info, items)
    requires PeerOk(p) && ChanmodesOk(info)
    ensures var ls := AllLines(p, items);
            && Legible(ls) && Accepted(s, Heard(ls, now))
            && At(Run(s, Heard(ls, now)), chan) == NoticeAll(info, me, items, now, chan, At(s, chan))
    decreases |items|
  {
    hide Effect, ItemOk, LinesOf, Represents, Legible, Heard, Accepted, Run, At, ItemSays, NoticeStep, ChanmodesOk;
    RepresentsSound(s, info, m, me);
    if items == [] {
      NothingHeard(s, now);
    } else {
      assert ItemSays(info, items[0]);
      ItemNoted(s, info, m, me, p, items[0], now, chan);
      ItemHeard(s, info, m, me, p, items[0], now);
      var a, b := LinesOf(p, items[0]), AllLines(p, items[1..]);
      var s1 := Run(s, Heard(a, now));
      ItemsNoted(s1, info, Effect(info, m, me, items[0]), me, p, items[1..], now, chan);
      HeardSplit(a, b, now);
      RunSplit(s, Heard(a, now), Heard(b, now));
    }
  }

  // ------------------------------------------------------------------------- the texts get through

  /** What is asked of the texts of a channel: a topic without a line break, a setter that can stand in a
      line, and mode letters that can be printed. */
  predicate ChanTextsOk(d: ChanData) {
    && MiddleArg(d.name) && (d.topic.Some? ==> NoBreak(d.topic.value))
    && (d.topicSetBy.Some? ==> MiddleArg(d.topicSetBy.value))
    && ModesOk(d.modes) && ' ' !in d.modes && '\0' !in d.modes
  }

  lemma TopicItemsSay(info: Info, d: ChanData, e: ChanData)
    requires ChanTextsOk(e) && ChanmodesOk(info)
    ensures AllSay(info, TopicItems(d, e))
  {
    hide ModesOk, NoBreak;
    SetterHasNoSpace(e);
    hide MiddleArg;
  }

  lemma SetterHasNoSpace(d: ChanData)
    requires ChanTextsOk(d)
    ensures d.topicSetBy.Some? ==> ' ' !in d.topicSetBy.value
  {}

  function ModeLine(p: Peer, e: ChanData, letters: string): (l: Line) {
    Line(p.origin, ["MODE", e.name] + (if e.modes == {} then [] else ["+" + letters]), ColonUnknown)
  }

  lemma ModeItemsAre(p: Peer, d: ChanData, e: ChanData)
    requires ModesOk(e.modes) && ' ' !in e.modes && '\0' !in e.modes
    ensures ModeItems(p, d, e) == if d.modes == e.modes then [] else [Quiet(ModeLine(p, e, ModeLetters(e.modes, 0)))]
  {
    PrintedModes(e.modes);
    hide ModeLetters, ModesToString, PlainText;
  }

  lemma ModeLineOk(info: Info, p: Peer, e: ChanData, letters: string)
    requires ModesOn(info, p, e.name) && PeerOk(p) && MiddleArg(e.name) && PlainText(letters)
    ensures SayOk(info, ModeLine(p, e, letters))
  {
    hide MiddleArg, PlainText, NoBreak, ChanmodesOk;
    assert ("+" + letters)[1..] == letters;
  }

  lemma ModeItemsSay(info: Info, p: Peer, d: ChanData, e: ChanData)
    requires ChanTextsOk(e) && ModesOn(info, p, e.name) && PeerOk(p)
    ensures AllSay(info, ModeItems(p, d, e))
  {
    ModeItemsAre(p, d, e);
    PrintedModes(e.modes);
    ModeLineOk(info, p, e, ModeLetters(e.modes, 0));
    hide SayOk, ModeLine, PlainText, ModeLetters, ModesOk, ModeItems, ModesOn, PeerOk, MiddleArg, NoBreak, AllSay;
    NoneSay(info);
    QuietSays(info, ModeLine(p, e, ModeLetters(e.modes, 0)));
  }

  lemma TopicInfoSays(info: Info, p: Peer, d: ChanData)
    requires ChanTextsOk(d) && PeerOk(p) && ChanmodesOk(info)
    ensures AllSay(info, TopicInfo(p, d))
  {
    StrtolOfDecInt(d.topicSetTime);
    hide DecInt, StrtolAuto, MiddleArg, NoBreak, ModesOk;
  }

  lemma SaySplit(info: Info, x: seq<Item>, y: seq<Item>)
    requires AllSay(info, x) && AllSay(info, y)
    ensures AllSay(info, x + y)
  {
    hide ItemSays;
  }

  lemma {:induction false} LeaveItemsSay(info: Info, a: Net, i: nat, b: Net, x: nat, j: nat)
    requires Sound(a) && Sound(b) && i < |a.channels| && x < |b.channels| && j <= |a.channels[i].members|
    ensures AllSay(info, LeaveItems(a, i, b, x, j))
    decreases |a.channels[i].members| - j
  {
    hide Sound, SayOk, FindMask;
    if j < |a.channels[i].members| { LeaveItemsSay(info, a, i, b, x, j + 1); }
  }

  lemma {:induction false} JoinItemsSay(info: Info, a: Net, i: nat, b: Net, x: nat, y: nat)
    requires Sound(a) && Sound(b) && i < |a.channels| && x < |b.channels| && y <= |b.channels[x].members|
    ensures AllSay(info, JoinItems(a, i, b, x, y))
    decreases |b.channels[x].members| - y
  {
    hide Sound, SayOk, FindMember;
    if y < |b.channels[x].members| { JoinItemsSay(info, a, i, b, x, y + 1); }
  }

  /** All texts of a state. */
  predicate TextsOk(b: Net) { forall x :: 0 <= x < |b.channels| ==> ChanTextsOk(b.channels[x].data) }

  lemma ChannelItemsSay(info: Info, p: Peer, a: Net, i: nat, b: Net, x: nat)
    requires Sound(a) && Sound(b) && i < |a.channels| && x < |b.channels|
    requires TextsOk(b) && ModesOn(info, p, b.channels[x].data.name) && PeerOk(p)
    ensures AllSay(info, LeaveItems(a, i, b, x, 0) + JoinItems(a, i, b, x, 0))
    ensures var d, e := a.channels[i].data, b.channels[x].data;
            && AllSay(info, TopicItems(d, e)) && AllSay(info, ModeItems(p, d, e))
            && AllSay(info, ChannelItems(p, a, i, b, x))
  {
    hide Sound, AllSay, LeaveItems, JoinItems, TopicItems, ModeItems, ChanTextsOk, IsChannelName;
    var d, e := a.channels[i].data, b.channels[x].data;
    assert ChanTextsOk(e);
    LeaveItemsSay(info, a, i, b, x, 0);
    JoinItemsSay(info, a, i, b, x, 0);
    TopicItemsSay(info, d, e);
    ModeItemsSay(info, p, d, e);
    SaySplit(info, LeaveItems(a, i, b, x, 0), JoinItems(a, i, b, x, 0));
    SaySplit(info, TopicItems(d, e), ModeItems(p, d, e));
    SaySplit(info, LeaveItems(a, i, b, x, 0) + JoinItems(a, i, b, x, 0), TopicItems(d, e) + ModeItems(p, d, e));
  }

  lemma {:induction false} OldItemsSay(info: Info, p: Peer, own: string, a: Net, b: Net, i: nat)
    requires DiffOk(info, p, own, a, b) && i <= |a.channels| && TextsOk(b) && PeerOk(p)
    ensures AllSay(info, OldItems(p, own, a, b, i))
    decreases |a.channels| - i
  {
    hide AllSay, TextsOk, FindChan, SideOk, Compatible, ChanKey, MeKey, PlainMask, ModesOn, ChannelItems;
    if i < |a.channels| {
      OldItemsSay(info, p, own, a, b, i + 1);
      var x := FindChan(b, a.channels[i].data.name);
      SideFacts(info, a, b);
      if x < |b.channels| {
        ChannelItemsSay(info, p, a, i, b, x);
        SaySplit(info, ChannelItems(p, a, i, b, x), OldItems(p, own, a, b, i + 1));
      } else {
        OneSays(info, Leaves(own, a.channels[i].data.name));
        SaySplit(info, [Leaves(own, a.channels[i].data.name)], OldItems(p, own, a, b, i + 1));
      }
    } else {
      NoneSay(info);
    }
  }

  lemma OneSays(info: Info, item: Item)
    requires !item.Quiet?
    ensures AllSay(info, [item])
  {}

  lemma QuietSays(info: Info, l: Line)
    requires SayOk(info, l)
    ensures AllSay(info, [Quiet(l)])
  {
    hide SayOk;
  }

  lemma NoneSay(info: Info)
    ensures AllSay(info, [])
  {}

  lemma OpenItemsSay(info: Info, p: Peer, own: string, b: Net, x: nat, chunks: seq<seq<string>>)
    requires x < |b.channels| && TextsOk(b) && PeerOk(p) && ChanmodesOk(info)
    ensures AllSay(info, TopicInfo(p, b.channels[x].data)) && AllSay(info, OpenItems(p, own, b, x, chunks))
  {
    hide AllSay, ChanTextsOk, TopicInfo, ChanmodesOk;
    var d := b.channels[x].data;
    assert ChanTextsOk(d);
    TopicInfoSays(info, p, d);
    OneSays(info, Joins(own, d.name));
    OneSays(info, Lists(d.mode, d.name, chunks));
    SaySplit(info, [Joins(own, d.name)], TopicInfo(p, d));
    SaySplit(info, [Joins(own, d.name)] + TopicInfo(p, d), [Lists(d.mode, d.name, chunks)]);
  }

  lemma {:induction false} NewItemsSay(info: Info, p: Peer, own: string, a: Net, b: Net, x: nat, cuts: Cuts)
    requires x <= |b.channels| && x <= |cuts| && TextsOk(b) && PeerOk(p) && ChanmodesOk(info)
    ensures AllSay(info, NewItems(p, own, a, b, x, cuts))
  {
    hide AllSay, TextsOk, KnownChan, OpenItems, ChanmodesOk;
    if x == 0 {
      NoneSay(info);
    } else {
      NewItemsSay(info, p, own, a, b, x - 1, cuts);
      OpenItemsSay(info, p, own, b, x - 1, cuts[x - 1]);
      NoneSay(info);
      SaySplit(info, NewItems(p, own, a, b, x - 1, cuts),
               if KnownChan(a, b.channels[x - 1].data.name) then [] else OpenItems(p, own, b, x - 1, cuts[x - 1]));
    }
  }

  /** Lines with such texts are well-formed, whatever the topic has in it. */
  lemma SayIsWellFormed(info: Info, l: Line)
    requires SayOk(info, l)
    ensures WellFormed(l)
  {
    var a := l.args;
    hide FlagsHeeded, ChanmodesOk, MiddleArg, DecInt, StrtolAuto, ComesBack, PlainText, NoBreak;
    if a[0] == "TOPIC" {
      var topic := if |a| > 2 then Some(a[2]) else None;
      assert a == ["TOPIC", a[1]] + (if topic.Some? then [topic.value] else []);
      TopicComesBack(l.origin, a[1], topic);
      assert ComesBack(l);
    } else if a[0] == "332" {
      assert a == ["332"] + [a[1], a[2]] + [a[3]];
      MessageSurvives(l.origin, "332", [a[1], a[2]], a[3]);
      assert ComesBack(l);
    } else if a[0] == "333" {
      assert a == ["333", a[1], a[2], a[3], DecInt(StrtolAuto(a[4]))];
      SetterComesBack(l.origin, a[1], a[2], a[3], StrtolAuto(a[4]));
      assert ComesBack(l);
    } else if |a| > 2 {
      assert "+" + a[2][1..] == a[2];
      assert a == ["MODE", a[1], "+" + a[2][1..]];
      LettersComeBack(l.origin, a[1], a[2][1..]);
    } else {
      assert a == ["MODE", a[1]];
      NothingPlain();
      LettersComeBack(l.origin, a[1], "");
    }
    hide WellFormed;
    ComesBackIsWellFormed(l);
  }

  lemma NothingPlain()
    ensures PlainText("")
  {}

  lemma SaysLegible(info: Info, items: seq<Item>)
    requires AllSay(info, items)
    ensures QuietsLegible(items)
  {
    hide SayOk, WellFormed;
    forall k | 0 <= k < |items| && items[k].Quiet?
      ensures WellFormed(items[k].line)
    {
      assert ItemSays(info, items[k]);
      SayIsWellFormed(info, items[k].line);
    }
  }

  // --------------------------------------------------------------------- what it comes to

  /** What the lines about a channel in both states make of its notice. */
  function Changed(info: Info, v: Notice, d: ChanData, e: ChanData, now: int): (r: Notice)
    requires ChanmodesOk(info)
  {
    var told := if d.topic == e.topic || e.topic.None? || e.topicSetBy.None? then v
                else v.(topic := e.topic, setter := Some(NickPart(e.topicSetBy.value)), time := now);
    if d.modes == e.modes then told else told.(modes := told.modes + FlagsHeeded(info, ModeLetters(e.modes, 0)))
  }

  /** What is told of a channel that is new. */
  function Opened(e: ChanData): (r: Notice) {
    var v := BLANK.(topic := e.topic);
    if e.topicSetTime != 0 && e.topicSetBy.Some? then v.(setter := e.topicSetBy, time := e.topicSetTime) else v
  }

  lemma NothingAll(info: Info, me: string, now: int, chan: string, v: Option<Notice>)
    requires ChanmodesOk(info)
    ensures AllSay(info, []) && NoticeAll(info, me, [], now, chan, v) == v
  {}

  lemma OneAll(info: Info, me: string, item: Item, now: int, chan: string, v: Option<Notice>)
    requires ChanmodesOk(info) && ItemSays(info, item)
    ensures AllSay(info, [item]) && NoticeAll(info, me, [item], now, chan, v) == Stepped(info, me, item, now, chan, v)
  {
    hide ItemSays, NoticeStep;
    assert [item][1..] == [];
  }

  lemma TopicComesTo(info: Info, me: string, d: ChanData, e: ChanData, now: int, chan: string, v: Notice)
    requires ChanmodesOk(info) && ChanTextsOk(e) && AllSay(info, TopicItems(d, e)) && Eq(info, e.name, chan)
    ensures NoticeAll(info, me, TopicItems(d, e), now, chan, Some(v)) ==
            Some(if d.topic == e.topic || e.topic.None? || e.topicSetBy.None? then v
                 else v.(topic := e.topic, setter := Some(NickPart(e.topicSetBy.value)), time := now))
  {
    hide FlagsHeeded, ChanTextsOk, SayOk, NickPart, ChanmodesOk;
    if d.topic != e.topic {
      OneAll(info, me, TopicItems(d, e)[0], now, chan, Some(v));
    }
  }

  lemma ModeLineTells(info: Info, me: string, p: Peer, e: ChanData, letters: string, now: int, chan: string, v: Notice)
    requires ChanmodesOk(info) && Eq(info, e.name, chan) && (e.modes == {} ==> forall m: char :: m !in letters)
    ensures NoticeStep(info, me, Quiet(ModeLine(p, e, letters)), now, chan, Some(v)) ==
            Some(v.(modes := v.modes + FlagsHeeded(info, letters)))
  {
    if e.modes == {} { NoFlags(info, v, letters); }
    hide FlagsHeeded, ChanmodesOk, NickPart, StrtolAuto;
    assert ("+" + letters)[1..] == letters;
  }

  lemma ModesComeTo(info: Info, me: string, p: Peer, d: ChanData, e: ChanData, now: int, chan: string, v: Notice)
    requires ChanmodesOk(info) && ChanTextsOk(e) && AllSay(info, ModeItems(p, d, e)) && Eq(info, e.name, chan)
    ensures NoticeAll(info, me, ModeItems(p, d, e), now, chan, Some(v)) ==
            Some(if d.modes == e.modes then v else v.(modes := v.modes + FlagsHeeded(info, ModeLetters(e.modes, 0))))
  {
    ModeItemsAre(p, d, e);
    PrintedModes(e.modes);
    hide FlagsHeeded, ChanTextsOk, ChanmodesOk, ModeLetters, PlainText, ModeItems, ModeLine, NoticeStep, Eq;
    if d.modes == e.modes {
      NothingAll(info, me, now, chan, Some(v));
    } else {
      var item := Quiet(ModeLine(p, e, ModeLetters(e.modes, 0)));
      assert AllSay(info, [item]) && [item][0] == item;
      assert ItemSays(info, item);
      hide AllSay, ItemSays, NoticeAll;
      OneAll(info, me, item, now, chan, Some(v));
      ModeLineTells(info, me, p, e, ModeLetters(e.modes, 0), now, chan, v);
    }
  }

  lemma NoFlags(info: Info, v: Notice, letters: string)
    requires ChanmodesOk(info) && forall m: char :: m !in letters
    ensures v.(modes := v.modes + FlagsHeeded(info, letters)) == v
  {
    HeededIff(info, letters);
    assert FlagsHeeded(info, letters) == {};
    assert v.modes + {} == v.modes;
  }

  /** Topic and mode lines about another channel. */
  lemma QuietElsewhere(info: Info, me: string, p: Peer, d: ChanData, e: ChanData, now: int, chan: string,
                       v: Option<Notice>)
    requires ChanmodesOk(info) && !Eq(info, e.name, chan)
    requires AllSay(info, TopicItems(d, e)) && AllSay(info, ModeItems(p, d, e))
    ensures NoticeAll(info, me, TopicItems(d, e), now, chan, v) == v
    ensures NoticeAll(info, me, ModeItems(p, d, e), now, chan, v) == v
  {
    hide Heeded, SayOk, ChanmodesOk, ModesToString;
    if d.topic != e.topic { OneAll(info, me, TopicItems(d, e)[0], now, chan, v); }
    if d.modes != e.modes { OneAll(info, me, ModeItems(p, d, e)[0], now, chan, v); }
  }

  /** Members leaving and coming tell nothing about a channel that stays known. */
  lemma {:induction false} LeavesTellNothing(info: Info, a: Net, i: nat, b: Net, x: nat, j: nat, now: int, chan: string,
                                             v: Option<Notice>)
    requires SideOk(info, a) && SideOk(info, b) && i < |a.channels| && x < |b.channels| && j <= |a.channels[i].members|
    requires Compatible(a, i, b, x) && ChanKey(a, i) == ChanKey(b, x) && ChanmodesOk(info)
    ensures AllSay(info, LeaveItems(a, i, b, x, j))
    ensures NoticeAll(info, MeKey(a), LeaveItems(a, i, b, x, j), now, chan, v) == v
    decreases |a.channels[i].members| - j
  {
    hide *;
    SideFacts(info, a, b);
    LeaveItemsSay(info, a, i, b, x, j);
    LeaveStep(a, i, b, x, j);
    if j < |a.channels[i].members| {
      LeaveTellsNothing(info, a, i, b, x, j, now, chan, v);
      LeavesTellNothing(info, a, i, b, x, j + 1, now, chan, v);
      NoticeSplit(info, MeKey(a), [LeaveItem(a, i, b, x, j)], LeaveItems(a, i, b, x, j + 1), now, chan, v);
    } else {
      NothingAll(info, MeKey(a), now, chan, v);
    }
  }

  lemma LeaveStep(a: Net, i: nat, b: Net, x: nat, j: nat)
    requires Sound(a) && Sound(b) && i < |a.channels| && x < |b.channels| && j <= |a.channels[i].members|
    ensures LeaveItems(a, i, b, x, j) ==
            if j == |a.channels[i].members| then [] else [LeaveItem(a, i, b, x, j)] + LeaveItems(a, i, b, x, j + 1)
  {
    hide Sound, FindMask;
  }

  lemma LeaveTellsNothing(info: Info, a: Net, i: nat, b: Net, x: nat, j: nat, now: int, chan: string, v: Option<Notice>)
    requires SideOk(info, a) && SideOk(info, b) && i < |a.channels| && x < |b.channels| && j < |a.channels[i].members|
    requires Compatible(a, i, b, x) && ChanKey(a, i) == ChanKey(b, x) && ChanmodesOk(info)
    ensures Sound(a) && Sound(b) && AllSay(info, [LeaveItem(a, i, b, x, j)])
    ensures NoticeAll(info, MeKey(a), [LeaveItem(a, i, b, x, j)], now, chan, v) == v
  {
    LeaverIsNotMe(info, a, i, b, x, j);
    var item := LeaveItem(a, i, b, x, j);
    hide SideOk, Sound, Distinct, Compatible, ChanKey, ChanmodesOk, LeaveItem, FindMask, MeKey, Folded, NickPart, Eq;
    OneSays(info, item);
    OneAll(info, MeKey(a), item, now, chan, v);
  }

  lemma LeaverIsNotMe(info: Info, a: Net, i: nat, b: Net, x: nat, j: nat)
    requires SideOk(info, a) && SideOk(info, b) && i < |a.channels| && x < |b.channels| && j < |a.channels[i].members|
    requires Compatible(a, i, b, x) && ChanKey(a, i) == ChanKey(b, x)
    ensures Sound(a) && Sound(b)
    ensures var item := LeaveItem(a, i, b, x, j);
            !item.Quiet? && !item.Joins? && (item.Leaves? ==> Folded(info, NickPart(item.mask)) != MeKey(a))
  {
    KeptIff(info, a, i, b, x, j);
    MaskFacts(info, a, i, j);
    assert NickKey(a, i, j) in Seats(a, i);
    hide FindMask, KnownMask, PlainMask, MiddleArg, Distinct;
  }

  lemma {:induction false} JoinsTellNothing(info: Info, me: string, a: Net, i: nat, b: Net, x: nat, y: nat, now: int,
                                            chan: string, v: Option<Notice>)
    requires Sound(a) && Sound(b) && i < |a.channels| && x < |b.channels| && y <= |b.channels[x].members|
    requires ChanmodesOk(info) && (v.Some? || !Eq(info, b.channels[x].data.name, chan))
    ensures AllSay(info, JoinItems(a, i, b, x, y)) && NoticeAll(info, me, JoinItems(a, i, b, x, y), now, chan, v) == v
    decreases |b.channels[x].members| - y
  {
    JoinItemsSay(info, a, i, b, x, y);
    hide Sound, ChanmodesOk, SayOk, FindMember;
    if y < |b.channels[x].members| {
      var item, rest := Joins(MaskOf(MemberNick(b, x, y)), b.channels[x].data.name), JoinItems(a, i, b, x, y + 1);
      JoinsTellNothing(info, me, a, i, b, x, y + 1, now, chan, v);
      OneAll(info, me, item, now, chan, v);
      NoticeSplit(info, me, [item], rest, now, chan, v);
      assert JoinItems(a, i, b, x, y) == [item] + rest || JoinItems(a, i, b, x, y) == [] + rest;
      assert [] + rest == rest;
    }
  }

  /** client_send_channel_state_diff as a whole. */
  lemma ChannelComesTo(info: Info, p: Peer, a: Net, i: nat, b: Net, x: nat, now: int, chan: string, v: Option<Notice>)
    requires SideOk(info, a) && SideOk(info, b) && i < |a.channels| && x < |b.channels| && TextsOk(b) && PeerOk(p)
    requires Compatible(a, i, b, x) && ChanKey(a, i) == ChanKey(b, x) && ModesOn(info, p, b.channels[x].data.name)
    requires v.Some? || !Eq(info, b.channels[x].data.name, chan)
    ensures Sound(a) && Sound(b) && ChanmodesOk(info) && AllSay(info, ChannelItems(p, a, i, b, x))
    ensures var d, e := a.channels[i].data, b.channels[x].data;
            NoticeAll(info, MeKey(a), ChannelItems(p, a, i, b, x), now, chan, v) ==
            if Eq(info, e.name, chan) then Some(Changed(info, v.value, d, e, now)) else v
  {
    SideFacts(info, a, b);
    var me, d, e := MeKey(a), a.channels[i].data, b.channels[x].data;
    var leave, join := LeaveItems(a, i, b, x, 0), JoinItems(a, i, b, x, 0);
    var topic, mode := TopicItems(d, e), ModeItems(p, d, e);
    assert ChanTextsOk(e);
    ChannelItemsSay(info, p, a, i, b, x);
    LeavesTellNothing(info, a, i, b, x, 0, now, chan, v);
    JoinsTellNothing(info, me, a, i, b, x, 0, now, chan, v);
    hide Sound, SideOk, Compatible, ChanmodesOk, AllSay, NoticeAll, ChanTextsOk, TextsOk, TopicItems, ModeItems;
    hide LeaveItems, JoinItems, ChanKey, FlagsHeeded, IsChannelName, Eq;
    NoticeSplit(info, me, leave, join, now, chan, v);
    NoticeSplit(info, me, leave + join, topic + mode, now, chan, v);
    NoticeSplit(info, me, topic, mode, now, chan, v);
    if Eq(info, e.name, chan) {
      TopicComesTo(info, me, d, e, now, chan, v.value);
      ModesComeTo(info, me, p, d, e, now, chan, NoticeAll(info, me, topic, now, chan, v).value);
    } else {
      QuietElsewhere(info, me, p, d, e, now, chan, v);
    }
  }

  /** The first half of client_send_topic. */
  function TopicPart(p: Peer, d: ChanData): (r: seq<Item>) {
    if d.topic.Some? then [Quiet(Line(p.origin, ["332", p.target, d.name, d.topic.value], ColonUnknown))] else []
  }

  /** The second half. */
  function SetterPart(p: Peer, d: ChanData): (r: seq<Item>) {
    if d.topicSetTime != 0 && d.topicSetBy.Some?
    then [Quiet(Line(p.origin, ["333", p.target, d.name, d.topicSetBy.value, DecInt(d.topicSetTime)], ColonUnknown))]
    else []
  }

  lemma TopicPartTells(info: Info, me: string, p: Peer, d: ChanData, now: int, chan: string, v: Option<Notice>)
    requires ChanmodesOk(info) && AllSay(info, TopicPart(p, d)) && (Eq(info, d.name, chan) ==> v.Some?)
    ensures NoticeAll(info, me, TopicPart(p, d), now, chan, v) ==
            if Eq(info, d.name, chan) && d.topic.Some? then Some(v.value.(topic := d.topic)) else v
  {
    hide FlagsHeeded, SayOk, NickPart, ChanmodesOk, StrtolAuto;
    if d.topic.Some? { OneAll(info, me, TopicPart(p, d)[0], now, chan, v); }
  }

  lemma SetterPartTells(info: Info, me: string, p: Peer, d: ChanData, now: int, chan: string, v: Option<Notice>)
    requires ChanmodesOk(info) && AllSay(info, SetterPart(p, d)) && (Eq(info, d.name, chan) ==> v.Some?)
    ensures NoticeAll(info, me, SetterPart(p, d), now, chan, v) ==
            if Eq(info, d.name, chan) && d.topicSetTime != 0 && d.topicSetBy.Some?
            then Some(v.value.(setter := d.topicSetBy, time := d.topicSetTime)) else v
  {
    StrtolOfDecInt(d.topicSetTime);
    hide FlagsHeeded, SayOk, NickPart, ChanmodesOk, StrtolAuto, DecInt;
    if d.topicSetTime != 0 && d.topicSetBy.Some? { OneAll(info, me, SetterPart(p, d)[0], now, chan, v); }
  }

  lemma TopicInfoTells(info: Info, me: string, p: Peer, d: ChanData, now: int, chan: string, v: Option<Notice>)
    requires ChanmodesOk(info) && ChanTextsOk(d) && PeerOk(p) && v == if Eq(info, d.name, chan) then Some(BLANK) else v
    ensures AllSay(info, TopicInfo(p, d))
    ensures NoticeAll(info, me, TopicInfo(p, d), now, chan, v) == if Eq(info, d.name, chan) then Some(Opened(d)) else v
  {
    var t, u := TopicPart(p, d), SetterPart(p, d);
    assert TopicInfo(p, d) == t + u;
    TopicInfoSays(info, p, d);
    SayParts(info, t, u);
    hide AllSay, NoticeAll, TopicInfo, TopicPart, SetterPart, ChanTextsOk, ChanmodesOk, Eq;
    NoticeSplit(info, me, t, u, now, chan, v);
    TopicPartTells(info, me, p, d, now, chan, v);
    SetterPartTells(info, me, p, d, now, chan, NoticeAll(info, me, t, now, chan, v));
  }

  lemma SayParts(info: Info, x: seq<Item>, y: seq<Item>)
    requires AllSay(info, x + y)
    ensures AllSay(info, x) && AllSay(info, y)
  {
    hide ItemSays;
    assert forall k :: 0 <= k < |x| ==> x[k] == (x + y)[k];
    assert forall k :: 0 <= k < |y| ==> y[k] == (x + y)[|x| + k];
  }

  /** client_send_channel_state: a channel that is new is known with its topic, and without flags. */
  lemma OpenComesTo(info: Info, me: string, p: Peer, own: string, b: Net, x: nat, chunks: seq<seq<string>>, now: int,
                    chan: string, v: Option<Notice>)
    requires x < |b.channels| && TextsOk(b) && PeerOk(p) && ChanmodesOk(info)
    requires Eq(info, b.channels[x].data.name, chan) ==> v.None?
    ensures AllSay(info, OpenItems(p, own, b, x, chunks))
    ensures NoticeAll(info, me, OpenItems(p, own, b, x, chunks), now, chan, v) ==
            if Eq(info, b.channels[x].data.name, chan) then Some(Opened(b.channels[x].data)) else v
  {
    var d := b.channels[x].data;
    var join, list := Joins(own, d.name), Lists(d.mode, d.name, chunks);
    var w := Stepped(info, me, join, now, chan, v);
    assert ChanTextsOk(d);
    OneSays(info, join);
    OneSays(info, list);
    OneAll(info, me, join, now, chan, v);
    TopicInfoTells(info, me, p, d, now, chan, w);
    var t := NoticeAll(info, me, TopicInfo(p, d), now, chan, w);
    OneAll(info, me, list, now, chan, t);
    hide AllSay, NoticeAll, TopicInfo, ChanTextsOk, TextsOk, ChanmodesOk, Eq, Opened;
    SaySplit(info, [join], TopicInfo(p, d));
    NoticeSplit(info, me, [join] + TopicInfo(p, d), [list], now, chan, v);
    NoticeSplit(info, me, [join], TopicInfo(p, d), now, chan, v);
  }

  // ------------------------------------------------------------------------- the whole diff

  lemma FoundHere(s: Net, x: nat, chan: string)
    requires Distinct(s) && x < |s.channels|
    ensures FindChan(s, chan) == x <==> Eq(s.info, s.channels[x].data.name, chan)
  {
    var names, f := ChanNames(s.channels), FindChan(s, chan);
    assert names[x] == s.channels[x].data.name;
    if f < x {
      assert Same(s.info.casemapping, names[f], chan) && !Same(s.info.casemapping, names[f], names[x]);
    }
  }

  lemma FoundInBoth(info: Info, a: Net, i: nat, b: Net, chan: string)
    requires SideOk(info, a) && SideOk(info, b) && i < |a.channels|
    ensures var x := FindChan(b, a.channels[i].data.name);
            && (x < |b.channels| ==> (Eq(info, b.channels[x].data.name, chan) <==> FindChan(a, chan) == i))
            && (FindChan(a, chan) == i ==> FindChan(b, chan) == x)
  {
    FoundIs(info, a, i, b);
    SideFacts(info, a, b);
    FoundHere(a, i, chan);
    var name := a.channels[i].data.name;
    hide SideOk, Sound, Distinct, Rooms;
    if Eq(info, name, chan) { SameFound(b, name, chan); }
  }

  /** What one round of the loop over the old channels sends. */
  function OldPart(p: Peer, own: string, a: Net, b: Net, i: nat): (r: seq<Item>)
    requires Sound(a) && Sound(b) && i < |a.channels|
  {
    var x := FindChan(b, a.channels[i].data.name);
    if x < |b.channels| then ChannelItems(p, a, i, b, x) else [Leaves(own, a.channels[i].data.name)]
  }

  lemma OldStep(p: Peer, own: string, a: Net, b: Net, i: nat)
    requires Sound(a) && Sound(b) && i <= |a.channels|
    ensures OldItems(p, own, a, b, i) ==
            if i == |a.channels| then [] else OldPart(p, own, a, b, i) + OldItems(p, own, a, b, i + 1)
  {
    hide Sound, ChannelItems, FindChan;
  }

  lemma BothSidesOk(info: Info, p: Peer, own: string, a: Net, b: Net)
    requires DiffOk(info, p, own, a, b)
    ensures SideOk(info, a) && SideOk(info, b) && Sound(a) && Sound(b) && Distinct(a) && Distinct(b)
    ensures a.info == b.info == info
  {
    hide Compatible, ChanKey, Sound, Distinct, ModesOn;
  }

  /** One round of that loop. */
  lemma OldComesTo(info: Info, p: Peer, own: string, a: Net, b: Net, i: nat, now: int, chan: string, v: Option<Notice>)
    requires DiffOk(info, p, own, a, b) && i < |a.channels| && TextsOk(b) && PeerOk(p) && ChanmodesOk(info)
    requires FindChan(a, chan) == i ==> v.Some?
    ensures Sound(a) && Sound(b)
    ensures var x, items := FindChan(b, a.channels[i].data.name), OldPart(p, own, a, b, i);
            && AllSay(info, items)
            && NoticeAll(info, MeKey(a), items, now, chan, v) ==
               if FindChan(a, chan) != i then v
               else if x < |b.channels| then Some(Changed(info, v.value, a.channels[i].data, b.channels[x].data, now))
               else None
  {
    SideFacts(info, a, b);
    FoundIs(info, a, i, b);
    FoundInBoth(info, a, i, b, chan);
    FoundHere(a, i, chan);
    var x := FindChan(b, a.channels[i].data.name);
    hide FindChan, SideOk, Sound, Distinct, Rooms, PlainMask, Compatible, ChanKey, ModesOn, TextsOk, ChannelItems;
    hide NoticeAll, AllSay, Changed, Eq, Folded, NickPart, MeKey;
    if x < |b.channels| {
      ChannelComesTo(info, p, a, i, b, x, now, chan, v);
    } else {
      var item := Leaves(own, a.channels[i].data.name);
      OneSays(info, item);
      OneAll(info, MeKey(a), item, now, chan, v);
    }
  }

  lemma {:induction false} OldAll(info: Info, p: Peer, own: string, a: Net, b: Net, i: nat, now: int, chan: string,
                                  v: Option<Notice>)
    requires DiffOk(info, p, own, a, b) && i <= |a.channels| && TextsOk(b) && PeerOk(p) && ChanmodesOk(info)
    requires i <= FindChan(a, chan) < |a.channels| ==> v.Some?
    ensures Sound(a) && Sound(b) && AllSay(info, OldItems(p, own, a, b, i))
    ensures NoticeAll(info, MeKey(a), OldItems(p, own, a, b, i), now, chan, v) ==
            var y, x := FindChan(a, chan), FindChan(b, chan);
            if y < i || y == |a.channels| then v
            else if x < |b.channels| then Some(Changed(info, v.value, a.channels[y].data, b.channels[x].data, now))
            else None
    decreases |a.channels| - i
  {
    hide *;
    BothSidesOk(info, p, own, a, b);
    OldItemsSay(info, p, own, a, b, i);
    OldStep(p, own, a, b, i);
    if i == |a.channels| {
      NothingAll(info, MeKey(a), now, chan, v);
    } else {
      OldComesTo(info, p, own, a, b, i, now, chan, v);
      FoundInBoth(info, a, i, b, chan);
      var items := OldPart(p, own, a, b, i);
      var w := NoticeAll(info, MeKey(a), items, now, chan, v);
      OldAll(info, p, own, a, b, i + 1, now, chan, w);
      NoticeSplit(info, MeKey(a), items, OldItems(p, own, a, b, i + 1), now, chan, v);
    }
  }

  /** What one round of the loop over the new channels sends. */
  function NewPart(p: Peer, own: string, a: Net, b: Net, x: nat, chunks: seq<seq<string>>): (r: seq<Item>)
    requires x < |b.channels|
  {
    if KnownChan(a, b.channels[x].data.name) then [] else OpenItems(p, own, b, x, chunks)
  }

  lemma NewStep(p: Peer, own: string, a: Net, b: Net, x: nat, cuts: Cuts)
    requires x <= |b.channels| && x <= |cuts|
    ensures NewItems(p, own, a, b, x, cuts) ==
            if x == 0 then [] else NewItems(p, own, a, b, x - 1, cuts) + NewPart(p, own, a, b, x - 1, cuts[x - 1])
  {
    hide KnownChan, OpenItems;
  }

  /** One round of that loop. */
  lemma NewComesTo(info: Info, p: Peer, own: string, a: Net, b: Net, x: nat, chunks: seq<seq<string>>, now: int,
                   chan: string, v: Option<Notice>)
    requires Sound(a) && Distinct(b) && a.info == b.info == info && x < |b.channels|
    requires TextsOk(b) && PeerOk(p) && ChanmodesOk(info)
    requires FindChan(b, chan) == x && !KnownChan(a, chan) ==> v.None?
    ensures var e := b.channels[x].data;
            var items := NewPart(p, own, a, b, x, chunks);
            && AllSay(info, items)
            && NoticeAll(info, MeKey(a), items, now, chan, v) ==
               if !KnownChan(a, chan) && FindChan(b, chan) == x then Some(Opened(e)) else v
  {
    FoundHere(b, x, chan);
    var name := b.channels[x].data.name;
    if Eq(info, name, chan) { SameFound(a, name, chan); }
    hide Sound, Distinct, TextsOk, OpenItems, NoticeAll, AllSay, MeKey, ChanmodesOk, PeerOk, Opened, FindChan, Eq;
    if KnownChan(a, name) {
      NothingAll(info, MeKey(a), now, chan, v);
    } else {
      OpenComesTo(info, MeKey(a), p, own, b, x, chunks, now, chan, v);
    }
  }

  lemma {:induction false} NewAll(info: Info, p: Peer, own: string, a: Net, b: Net, x: nat, cuts: Cuts, now: int,
                                  chan: string, v: Option<Notice>)
    requires Sound(a) && Distinct(b) && a.info == b.info == info && x <= |b.channels| && x <= |cuts|
    requires TextsOk(b) && PeerOk(p) && ChanmodesOk(info) && (KnownChan(a, chan) || v.None?)
    ensures AllSay(info, NewItems(p, own, a, b, x, cuts))
    ensures NoticeAll(info, MeKey(a), NewItems(p, own, a, b, x, cuts), now, chan, v) ==
            if !KnownChan(a, chan) && FindChan(b, chan) < x then Some(Opened(b.channels[FindChan(b, chan)].data)) else v
  {
    hide *;
    NewItemsSay(info, p, own, a, b, x, cuts);
    NewStep(p, own, a, b, x, cuts);
    if x == 0 {
      NothingAll(info, MeKey(a), now, chan, v);
    } else {
      var before, items := NewItems(p, own, a, b, x - 1, cuts), NewPart(p, own, a, b, x - 1, cuts[x - 1]);
      NewAll(info, p, own, a, b, x - 1, cuts, now, chan, v);
      var w := NoticeAll(info, MeKey(a), before, now, chan, v);
      NewComesTo(info, p, own, a, b, x - 1, cuts[x - 1], now, chan, w);
      NoticeSplit(info, MeKey(a), before, items, now, chan, v);
    }
  }

  /** What a receiver in the old state `a` knows of a channel `e` of the new state in the end. */
  function Afterwards(info: Info, a: Net, e: ChanData, now: int): (r: Notice)
    requires ChanmodesOk(info)
  {
    var y := FindChan(a, e.name);
    if y < |a.channels| then Changed(info, NoticeOf(a.channels[y].data), a.channels[y].data, e, now) else Opened(e)
  }

  lemma DiffAll(info: Info, p: Peer, own: string, a: Net, b: Net, cuts: Cuts, now: int, x: nat)
    requires DiffOk(info, p, own, a, b) && |cuts| == |b.channels| && TextsOk(b) && PeerOk(p) && ChanmodesOk(info)
    requires x < |b.channels|
    ensures Sound(a) && Sound(b) && AllSay(info, DiffItems(p, own, a, b, cuts))
    ensures var e := b.channels[x].data;
            NoticeAll(info, MeKey(a), DiffItems(p, own, a, b, cuts), now, e.name, At(a, e.name)) ==
            Some(Afterwards(info, a, e, now))
  {
    SideFacts(info, a, b);
    var chan := b.channels[x].data.name;
    FoundHere(b, x, chan);
    assert FindChan(b, chan) == x;
    hide DiffOk, SideOk, Sound, Distinct, TextsOk, NoticeAll, AllSay, MeKey, ChanmodesOk, PeerOk, FindChan, Changed,
        Opened;
    hide OldItems, NewItems;
    OldAll(info, p, own, a, b, 0, now, chan, At(a, chan));
    var gone, come := OldItems(p, own, a, b, 0), NewItems(p, own, a, b, |b.channels|, cuts);
    var w := NoticeAll(info, MeKey(a), gone, now, chan, At(a, chan));
    NewAll(info, p, own, a, b, |b.channels|, cuts, now, chan, w);
    SaySplit(info, gone, come);
    NoticeSplit(info, MeKey(a), gone, come, now, chan, At(a, chan));
  }

  lemma ModesAreOn(info: Info, p: Peer, own: string, a: Net, b: Net)
    requires DiffOk(info, p, own, a, b) && b.channels != []
    ensures ChanmodesOk(info)
  {
    hide SideOk, Compatible, ChanKey;
    assert ModesOn(info, p, b.channels[0].data.name);
  }

  /** Texts that get through in lines of those kinds leave nothing else to ask of a line. */
  lemma DiffLegible(info: Info, p: Peer, own: string, a: Net, b: Net, cuts: Cuts)
    requires DiffOk(info, p, own, a, b) && |cuts| == |b.channels| && TextsOk(b) && PeerOk(p)
    ensures Sound(a) && Sound(b) && QuietsLegible(DiffItems(p, own, a, b, cuts))
  {
    SideFacts(info, a, b);
    if b.channels == [] {
      hide SideOk, Sound, Distinct, Compatible;
      OnlyLeaves(p, own, a, b, 0);
    } else {
      ModesAreOn(info, p, own, a, b);
      DiffAll(info, p, own, a, b, cuts, 0, 0);
      SaysLegible(info, DiffItems(p, own, a, b, cuts));
    }
  }

  lemma {:induction false} OnlyLeaves(p: Peer, own: string, a: Net, b: Net, i: nat)
    requires Sound(a) && Sound(b) && b.channels == [] && i <= |a.channels|
    ensures QuietsLegible(OldItems(p, own, a, b, i))
    decreases |a.channels| - i
  {
    hide Sound, WellFormed;
    if i < |a.channels| { OnlyLeaves(p, own, a, b, i + 1); }
  }

  /** The lines of client_send_state_diff, printed, parsed and handled by a receiver in the old state,
      leave it on the new state's channels with their members, and every channel as `Afterwards` says.
      Nothing is asked of the lines but that the texts have no line break. */
  lemma DiffTells(s: Net, info: Info, p: Peer, own: string, letters: string, symbols: string, b: Net, cuts: Cuts,
                  now: int)
    requires DiffOk(info, p, own, s, b) && CutsOk(info, letters, symbols, s, b, cuts) && Closed(s) && PeerOk(p)
    requires TextsOk(b)
    ensures var ls := AllLines(p, DiffItems(p, own, s, b, cuts));
            && Legible(ls) && Accepted(s, Heard(ls, now))
            && var r := Run(s, Heard(ls, now));
               && Rooms(r) == Rooms(b)
               && forall x :: 0 <= x < |b.channels| ==>
                    && ChanmodesOk(info)
                    && At(r, b.channels[x].data.name) == Some(Afterwards(info, s, b.channels[x].data, now))
  {
    DiffLegible(info, p, own, s, b, cuts);
    DiffReachesNew(s, info, p, own, letters, symbols, b, cuts, now);
    assert Represents(s, info, Rooms(s), MeKey(s));
    AllOkDiff(s, info, p, own, letters, symbols, b, cuts);
    hide DiffOk, CutsOk, Closed, AllOk, Sound, Distinct, QuietsLegible, Rooms, TextsOk, DiffItems, Represents, Run,
        Heard;
    hide Accepted, Legible, AllLines, At, Afterwards, ChanmodesOk, MeKey, PeerOk;
    forall x | 0 <= x < |b.channels|
      ensures ChanmodesOk(info)
      ensures At(Run(s, Heard(AllLines(p, DiffItems(p, own, s, b, cuts)), now)), b.channels[x].data.name) ==
              Some(Afterwards(info, s, b.channels[x].data, now))
    {
      ModesAreOn(info, p, own, s, b);
      DiffAll(info, p, own, s, b, cuts, now, x);
      ItemsNoted(s, info, Rooms(s), MeKey(s), p, DiffItems(p, own, s, b, cuts), now, b.channels[x].data.name);
    }
  }

  /** The topic is the new one for a channel that is new; for one that was known it is exactly when it
      need not change or is there and has a setter. */
  lemma TopicReachesIff(info: Info, a: Net, e: ChanData, now: int)
    requires ChanmodesOk(info)
    ensures var y := FindChan(a, e.name);
            Afterwards(info, a, e, now).topic == e.topic <==>
            (y < |a.channels| && a.channels[y].data.topic != e.topic ==> e.topic.Some? && e.topicSetBy.Some?)
  {
    hide FlagsHeeded, ChanmodesOk, NickPart, FindChan;
  }

  predicate AllFlags(info: Info, modes: set<char>)
    requires ChanmodesOk(info)
  {
    forall m :: m in modes ==> m in Groups(info)[3] && !WantsArgument(info, m)
  }

  /** Flags: none are told of a channel that is new. For one that was known they are added to the old
      ones, all of them when all are flags, so a flag taken away stays. */
  lemma ModesReachIff(info: Info, a: Net, e: ChanData, now: int)
    requires ChanmodesOk(info) && ModesOk(e.modes) && ' ' !in e.modes && '\0' !in e.modes
    ensures var y, r := FindChan(a, e.name), Afterwards(info, a, e, now);
            && (y == |a.channels| ==> r.modes == {})
            && (y < |a.channels| && AllFlags(info, e.modes) ==>
                  && r.modes == a.channels[y].data.modes + e.modes
                  && (r.modes == e.modes <==> a.channels[y].data.modes <= e.modes))
  {
    hide Afterwards, FlagsHeeded, ChanmodesOk, FindChan, PlainText, ModesOk, WantsArgument, ModeLetters, ModesToString;
    var y, letters := FindChan(a, e.name), ModeLetters(e.modes, 0);
    HeededIff(info, letters);
    PrintedModes(e.modes);
    AfterwardsModes(info, a, e, now);
    if y < |a.channels| && AllFlags(info, e.modes) {
      assert FlagsHeeded(info, letters) == e.modes;
      assert e.modes + e.modes == e.modes;
    }
  }

  lemma AfterwardsModes(info: Info, a: Net, e: ChanData, now: int)
    requires ChanmodesOk(info)
    ensures var y, r := FindChan(a, e.name), Afterwards(info, a, e, now);
            r.modes == if y >= |a.channels| then {}
                       else if a.channels[y].data.modes == e.modes then e.modes
                       else a.channels[y].data.modes + FlagsHeeded(info, ModeLetters(e.modes, 0))
  {
    hide FlagsHeeded, ChanmodesOk, ModeLetters, FindChan, NickPart;
  }
}
