/** What a client is sent to bring its state up to date, item by item, and what a receiver that
    parses the text does with it. */
module Sending {
  import opened Base
  import opened Casemap
  import opened Info
  import opened Line
  import opened State
  import opened Handlers
  import opened Unique
  import opened Names
  import opened Seating
  import opened Occupancy

  /** One or, for a member list, several lines. */
  datatype Item =
    | Leaves(mask: string, chan: string)
    | Joins(mask: string, chan: string)
    | Renames(mask: string, to: string)
    | Quiet(line: Line)
    | Lists(mode: char, chan: string, chunks: seq<seq<string>>)

  function LinesOf(p: Peer, item: Item): (ls: seq<Line>) {
    match item
    case Leaves(mask, chan) => [Line(Some(mask), ["PART", chan], ColonUnknown)]
    case Joins(mask, chan) => [Line(Some(mask), ["JOIN", chan], ColonUnknown)]
    case Renames(mask, to) => [Line(Some(mask), ["NICK", to], ColonUnknown)]
    case Quiet(line) => [line]
    case Lists(mode, chan, chunks) =>
      (if Chunked(chunks) then Lines(p, mode, chan, chunks) else []) + [EndLine(p, chan)]
  }

  /** What an item does to the members of every channel. */
  function Effect(info: Info, m: map<string, set<string>>, me: string, item: Item): (r: map<string, set<string>>) {
    match item
    case Leaves(mask, chan) => Left(m, Folded(info, chan), Folded(info, NickPart(mask)),
                                    Folded(info, NickPart(mask)) == me)
    case Joins(mask, chan) => Entered(m, Folded(info, chan), Folded(info, NickPart(mask)))
    case Renames(_, _) => m
    case Quiet(_) => m
    case Lists(_, chan, chunks) =>
      if chunks == [] then m else m[Folded(info, chan) := FoldedNames(info, Flattened(chunks))]
  }

  function FoldedNames(info: Info, names: seq<string>): (r: set<string>) {
    set j | 0 <= j < |names| :: Folded(info, StripPrefix(info, names[j]))
  }

  // ------------------------------------------------------------------- what may be sent

  predicate PlainMask(info: Info, mask: string) {
    '!' in mask && ' ' !in mask && NickPart(mask) != "" && !HasPrefix(info, NickPart(mask))
  }

  predicate PlainChan(chan: string) { chan != "" && ',' !in chan && MiddleArg(chan) }

  /** A topic or mode line that goes with known channels. */
  predicate QuietOk(info: Info, m: map<string, set<string>>, l: Line) {
    && WellFormed(l)
    && (Complete(l) ==>
          match CommandOf(l)
          case TOPIC => Folded(info, l.args[1]) in m
          case N332 => true
          case N333 => |l.args| > 4
          case MODE => info.chantypes.Some? && ChanmodesOk(info) && IsChannelName(info, l.args[1]) && l.origin.Some?
          case _ => false)
  }

  predicate ListOk(info: Info, m: map<string, set<string>>, mode: char, chan: string, chunks: seq<seq<string>>) {
    && Folded(info, chan) in m && ChannelOk(mode, chan) && Chunked(chunks)
    && (forall k :: 0 <= k < |chunks| ==> PlainNames(chunks[k]) && AllOnePrefix(info, chunks[k]))
  }

  predicate ItemOk(info: Info, m: map<string, set<string>>, item: Item) {
    match item
    case Leaves(mask, chan) => PlainMask(info, mask) && PlainChan(chan)
    case Joins(mask, chan) => PlainMask(info, mask) && PlainChan(chan)
    case Renames(mask, to) => PlainMask(info, mask) && MiddleArg(to) && Eq(info, NickPart(mask), to)
    case Quiet(line) => QuietOk(info, m, line)
    case Lists(mode, chan, chunks) => ListOk(info, m, mode, chan, chunks)
  }

  // ---------------------------------------------------------------------- the receiver

  /** No member list is half received. */
  predicate Closed(s: Net) { forall i :: 0 <= i < |s.channels| ==> !s.channels[i].data.namreplyStarted }

  predicate Represents(s: Net, info: Info, m: map<string, set<string>>, me: string) {
    Sound(s) && Distinct(s) && Closed(s) && s.info == info && Rooms(s) == m && MeKey(s) == me
  }

  /** A line printed and parsed is the same but for the colon flag. */
  lemma OneLineHeard(s: Net, l: Line, now: int)
    requires Sound(s) && WellFormed(l)
    ensures Legible([l])
    ensures var h := l.(colon := ColonFlag(PrintsColon(l)));
            && (Accepted(s, Heard([l], now)) <==> Accepts(s, h))
            && (Accepts(s, h) ==> Run(s, Heard([l], now)) == Step(s, h, now))
  {
    hide Sound, Accepts, Step, Parse, PrintNl;
    ParseOfPrint(l);
    var es := Heard([l], now);
    assert es[0] == Event(l.(colon := ColonFlag(PrintsColon(l))), now);
    assert es[1..] == [];
    hide WellFormed, PrintsColon;
    if Accepts(s, es[0].line) {
      assert Accepted(Step(s, es[0].line, now), []);
    }
  }

  lemma SimpleLineWellFormed(mask: string, command: string, arg: string)
    requires ' ' !in mask && MiddleArg(arg) && (command == "PART" || command == "JOIN" || command == "NICK")
    ensures WellFormed(Line(Some(mask), [command, arg], ColonUnknown))
  {
    var l := Line(Some(mask), [command, arg], ColonUnknown);
    assert !PrintsColon(l) by {
      AsciiEqRefl("PART");
      AsciiEqRefl("JOIN");
      AsciiEqRefl("NICK");
    }
    assert l.args[1..] == [arg];
  }

  lemma Words()
    ensures CommandNamed("PART") == PART && CommandNamed("JOIN") == JOIN && CommandNamed("NICK") == NICK
  {
    AsciiEqRefl("PART");
    AsciiEqRefl("JOIN");
    AsciiEqRefl("NICK");
    AsciiNe("JOIN", "PART");
    AsciiNe("JOIN", "NICK");
    AsciiNe("PART", "NICK");
    AsciiNe("KICK", "NICK");
    AsciiNe("QUIT", "NICK");
    AsciiNe("TOPIC", "NICK");
  }

  lemma OneTarget(chan: string)
    requires PlainChan(chan)
    ensures StrSplit(chan, ',') == [chan]
  {}

  // ------------------------------------------------------------------------- lists closed

  predicate SameData(s: Net, r: Net) {
    |r.channels| == |s.channels| && forall x :: 0 <= x < |s.channels| ==> r.channels[x].data == s.channels[x].data
  }

  lemma DropMemberSameData(s: Net, i: nat, j: nat)
    requires Sound(s) && i < |s.channels| && j < |s.channels[i].members|
    ensures SameData(s, DropMember(s, i, j))
  {}

  lemma {:induction false} ClearSameData(s: Net, i: nat)
    requires Sound(s) && i < |s.channels|
    ensures SameData(s, ClearMembers(s, i))
    decreases |s.channels[i].members|
  {
    if s.channels[i].members != [] {
      DropMemberSameData(s, i, 0);
      hide DropMember, Sound;
      ClearSameData(DropMember(s, i, 0), i);
    }
  }

  lemma AddMemberSameData(s: Net, i: nat, name: string)
    requires Sound(s) && i < |s.channels| && OnePrefix(s.info, name)
    ensures SameData(s, AddMember(s, i, name))
  {}

  lemma {:induction false} AddNamesSameData(s: Net, i: nat, names: seq<string>)
    requires Sound(s) && i < |s.channels| && AllOnePrefix(s.info, names)
    ensures SameData(s, AddNames(s, i, names))
    decreases |names|
  {
    hide Sound, AddMember, OnePrefix;
    if names != [] {
      AddMemberSameData(s, i, names[0]);
      AddNamesSameData(if names[0] == "" then s else AddMember(s, i, names[0]), i, names[1..]);
    }
  }

  lemma PartClosed(s: Net, name: string, nick: string)
    requires Sound(s) && Closed(s)
    ensures Closed(PartOne(s, name, nick))
  {
    hide DropMember, ClearMembers, Sound, FindMember, FindChan;
    var i := FindChan(s, name);
    if i < |s.channels| {
      var j := FindMember(s, i, nick);
      if j < |s.channels[i].members| { DropMemberSameData(s, i, j); }
      var s1 := if j < |s.channels[i].members| then DropMember(s, i, j) else s;
      ClearSameData(s1, i);
    }
  }

  lemma JoinClosed(s: Net, name: string, origin: string)
    requires Sound(s) && Closed(s) && '!' in origin && OnePrefix(s.info, NickPart(origin))
    ensures Closed(JoinOne(s, name, origin))
  {
    hide AddMember, FindChan, FindMember, SetHostmask;
    AddMemberSameData(AddChan(s, name), FindChan(s, name), NickPart(origin));
  }

  // ----------------------------------------------------------------------- item by item

  lemma LeavesHeard(s: Net, info: Info, m: map<string, set<string>>, me: string, p: Peer, mask: string, chan: string,
                    now: int)
    requires Represents(s, info, m, me) && PlainMask(info, mask) && PlainChan(chan)
    ensures var ls := LinesOf(p, Leaves(mask, chan));
            && Legible(ls) && Accepted(s, Heard(ls, now))
            && Represents(Run(s, Heard(ls, now)), info, Effect(info, m, me, Leaves(mask, chan)), me)
  {
    hide Sound, Distinct, Rooms, PartOne, Run, Accepted, Closed;
    var l := Line(Some(mask), ["PART", chan], ColonUnknown);
    SimpleLineWellFormed(mask, "PART", chan);
    OneLineHeard(s, l, now);
    PartStep(s, mask, chan, ColonFlag(PrintsColon(l)), now);
    PartRooms(s, chan, NickPart(mask));
    PartClosed(s, chan, NickPart(mask));
  }

  lemma PartStep(s: Net, mask: string, chan: string, colon: Colon, now: int)
    requires Sound(s) && PlainChan(chan)
    ensures var l := Line(Some(mask), ["PART", chan], colon);
            Accepts(s, l) && Step(s, l, now) == PartOne(s, chan, NickPart(mask))
  {
    hide Sound, PartOne, UserHostsOk, UserHosts, FindPerson;
    Words();
    hide CommandNamed;
    OneTarget(chan);
    var n := NickPart(mask);
    assert [chan][1..] == [] && PartAll(PartOne(s, chan, n), [], n) == PartOne(s, chan, n);
    assert PartAll(s, [chan], n) == PartOne(s, chan, n);
  }

  lemma JoinsHeard(s: Net, info: Info, m: map<string, set<string>>, me: string, p: Peer, mask: string, chan: string,
                   now: int)
    requires Represents(s, info, m, me) && PlainMask(info, mask) && PlainChan(chan)
    ensures var ls := LinesOf(p, Joins(mask, chan));
            && Legible(ls) && Accepted(s, Heard(ls, now))
            && Represents(Run(s, Heard(ls, now)), info, Effect(info, m, me, Joins(mask, chan)), me)
  {
    hide Sound, Distinct, Rooms, JoinOne, Run, Accepted, Closed;
    var l := Line(Some(mask), ["JOIN", chan], ColonUnknown);
    SimpleLineWellFormed(mask, "JOIN", chan);
    OneLineHeard(s, l, now);
    JoinStep(s, mask, chan, ColonFlag(PrintsColon(l)), now);
    JoinRooms(s, chan, mask);
    JoinClosed(s, chan, mask);
  }

  lemma JoinStep(s: Net, mask: string, chan: string, colon: Colon, now: int)
    requires Sound(s) && PlainChan(chan) && PlainMask(s.info, mask)
    ensures OnePrefix(s.info, NickPart(mask))
    ensures var l := Line(Some(mask), ["JOIN", chan], colon);
            Accepts(s, l) && Step(s, l, now) == JoinOne(s, chan, mask)
  {
    hide Sound, JoinOne, UserHostsOk, UserHosts, FindPerson;
    Words();
    hide CommandNamed;
    OneTarget(chan);
    assert [chan][1..] == [] && JoinAll(JoinOne(s, chan, mask), [], mask) == JoinOne(s, chan, mask);
    assert JoinAll(s, [chan], mask) == JoinOne(s, chan, mask);
  }

  lemma RenamesHeard(s: Net, info: Info, m: map<string, set<string>>, me: string, p: Peer, mask: string, to: string,
                     now: int)
    requires Represents(s, info, m, me) && PlainMask(info, mask) && MiddleArg(to) && Eq(info, NickPart(mask), to)
    ensures var ls := LinesOf(p, Renames(mask, to));
            && Legible(ls) && Accepted(s, Heard(ls, now))
            && Represents(Run(s, Heard(ls, now)), info, m, me)
  {
    hide Sound, Distinct, Rooms, Run, Accepted;
    var l := Line(Some(mask), ["NICK", to], ColonUnknown);
    SimpleLineWellFormed(mask, "NICK", to);
    OneLineHeard(s, l, now);
    NickStep(s, mask, to, ColonFlag(PrintsColon(l)), now);
    RespellRooms(s, NickPart(mask), to);
  }

  lemma NickStep(s: Net, mask: string, to: string, colon: Colon, now: int)
    requires Sound(s) && PlainMask(s.info, mask)
    ensures var l := Line(Some(mask), ["NICK", to], colon);
            Accepts(s, l) && Step(s, l, now) == RenameStep(s, NickPart(mask), to)
  {
    hide Sound, RenameStep, UserHostsOk, UserHosts, FindPerson;
    Words();
    hide CommandNamed;
  }

  lemma QuietHeard(s: Net, info: Info, m: map<string, set<string>>, me: string, p: Peer, l: Line, now: int)
    requires Represents(s, info, m, me) && QuietOk(info, m, l)
    ensures Legible([l]) && Accepted(s, Heard([l], now)) && Represents(Run(s, Heard([l], now)), info, m, me)
  {
    hide Sound, Distinct, Rooms, Run, Accepted, WellFormedAs, Closed, Quietly, Step, Accepts, IsQuiet, CommandOf;
    hide Complete, PrintsColon;
    OneLineHeard(s, l, now);
    var h := l.(colon := ColonFlag(PrintsColon(l)));
    QuietAccepted(s, info, m, l, h);
    QuietLineQuietly(s, h, now);
    QuietMeans(s, Step(s, h, now));
    QuietClosed(s, h, now);
  }

  lemma QuietMeans(s: Net, r: Net)
    requires Sound(s) && Sound(r) && Quietly(s, r) && Distinct(s)
    ensures Rooms(r) == Rooms(s) && Distinct(r) && MeKey(r) == MeKey(s) && r.info == s.info
  {
    QuietRooms(s, r);
  }

  lemma QuietAccepted(s: Net, info: Info, m: map<string, set<string>>, l: Line, h: Line)
    requires Sound(s) && s.info == info && Rooms(s) == m && QuietOk(info, m, l) && h == l.(colon := h.colon)
    ensures Accepts(s, h) && IsQuiet(s, h)
  {
    hide Sound, Rooms, WellFormed, CommandNamed, ChanmodesOk;
    if Complete(l) && CommandOf(l) == TOPIC {
      KnownKey(s, l.args[1]);
    }
  }

  lemma QuietClosed(s: Net, l: Line, now: int)
    requires Sound(s) && Accepts(s, l) && IsQuiet(s, l) && Closed(s)
    ensures Closed(Step(s, l, now))
  {
    hide Sound, CommandNamed, ModeLine, MemberStep, DataStep;
    if Complete(l) {
      if CommandOf(l) == MODE { ModeLineClosed(s, l, now); }
      else { DataClosed(s, l, now); }
    }
  }

  lemma DataClosed(s: Net, l: Line, now: int)
    requires Sound(s) && Accepts(s, l) && Complete(l) && Closed(s)
    requires CommandOf(l) == TOPIC || CommandOf(l) == N332 || CommandOf(l) == N333
    ensures Closed(DataStep(s, l, now))
  {
    hide Sound, CommandNamed, FindChan;
  }

  lemma ModeLineClosed(s: Net, l: Line, now: int)
    requires Sound(s) && Accepts(s, l) && Complete(l) && CommandOf(l) == MODE && IsQuiet(s, l) && Closed(s)
    ensures Closed(ModeLine(s, l, now))
  {
    hide Sound, CommandNamed, ModeLoop, ChanmodesOk;
    var i := FindChan(s, l.args[1]);
    if i < |s.channels| {
      ModeLoopClosed(s, SetterOf(s, NickPart(l.origin.value)), i, l.args[2], l.args, 3, true, now);
    }
  }

  lemma {:induction false} ModeLoopClosed(s: Net, setter: Option<string>, i: nat, modes: string, args: seq<string>,
                                          arg: nat, on: bool, now: int)
    requires Sound(s) && i < |s.channels| && ChanmodesOk(s.info) && Closed(s)
    ensures Closed(ModeLoop(s, setter, i, modes, args, arg, on, now))
    decreases |modes|
  {
    hide Sound, ChangeMode, ChanmodesOk, Closed;
    if modes == "" {
    } else if modes[0] == '+' {
      ModeLoopClosed(s, setter, i, modes[1..], args, arg, true, now);
    } else if modes[0] == '-' {
      ModeLoopClosed(s, setter, i, modes[1..], args, arg, false, now);
    } else {
      var c := ChangeMode(s, setter, i, on, modes[0], Nth(args, arg), now);
      ChangeModeClosed(s, setter, i, on, modes[0], Nth(args, arg), now);
      if c.taken.Some? {
        ModeLoopClosed(c.state, setter, i, modes[1..], args, if arg < |args| then arg + c.taken.value else arg, on,
                       now);
      }
    }
  }

  lemma ChangeModeClosed(s: Net, setter: Option<string>, i: nat, on: bool, m: char, arg: Option<string>, now: int)
    requires Sound(s) && i < |s.channels| && ChanmodesOk(s.info) && Closed(s)
    ensures Closed(ChangeMode(s, setter, i, on, m, arg, now).state)
  {
    hide Sound, FindMember, ChanmodesOk, IsPrefixMode, ChangeList, ChangeOption, ChangeMemberMode;
    SubModesClosed(s, setter, i, on, m, arg, now);
  }

  lemma SubModesClosed(s: Net, setter: Option<string>, i: nat, on: bool, m: char, arg: Option<string>, now: int)
    requires Sound(s) && i < |s.channels| && Closed(s)
    ensures Closed(ChangeList(s, setter, i, on, m, arg, now).state)
    ensures Closed(ChangeOption(s, i, on, m, arg).state) && Closed(ChangeMemberMode(s, i, on, m, arg).state)
  {
    hide Sound, FindMember;
  }

  lemma ListsHeard(s: Net, info: Info, m: map<string, set<string>>, me: string, p: Peer,
                   mode: char, chan: string, chunks: seq<seq<string>>, now: int)
    requires Represents(s, info, m, me) && ListOk(info, m, mode, chan, chunks) && PeerOk(p)
    ensures var item := Lists(mode, chan, chunks);
            var ls := LinesOf(p, item);
            && Legible(ls) && Accepted(s, Heard(ls, now))
            && Represents(Run(s, Heard(ls, now)), info, Effect(info, m, me, item), me)
  {
    hide Sound, Distinct, Rooms, Run, Accepted, PlainNames, AllOnePrefix, Told, OpenNames, AddNames, ChanKey;
    KnownKey(s, chan);
    var i := FindChan(s, chan);
    HeardIsTold(s, p, mode, chan, chunks, i, now);
    var t := Told(s, i, mode, chunks);
    if chunks != [] {
      ToldAll(s, i, mode, chunks);
      ChunksNotEmpty(chunks);
      ListRooms(s, i, mode, Flattened(chunks));
      ListSameData(s, i, mode, Flattened(chunks));
      assert Keys(s, Flattened(chunks)) == FoldedNames(info, Flattened(chunks));
    } else {
      assert t == s by { ToldNothing(s, i, mode); }
    }
    CloseList(s, t, i);
  }

  lemma ToldNothing(s: Net, i: nat, mode: char)
    requires Sound(s) && i < |s.channels|
    ensures Told(s, i, mode, []) == s
  {}

  lemma {:induction false} ChunksNotEmpty(chunks: seq<seq<string>>)
    requires forall k :: 0 <= k < |chunks| ==> PlainNames(chunks[k])
    ensures forall j :: 0 <= j < |Flattened(chunks)| ==> Flattened(chunks)[j] != ""
  {
    if chunks != [] {
      assert forall k :: 0 < k < |chunks| ==> chunks[k] == chunks[1..][k - 1];
      ChunksNotEmpty(chunks[1..]);
    }
  }

  /** Only the channel listed has other data. */
  predicate DataBut(s: Net, r: Net, i: nat) {
    |r.channels| == |s.channels| && forall x :: 0 <= x < |s.channels| && x != i ==>
        r.channels[x].data == s.channels[x].data
  }

  lemma ListSameData(s: Net, i: nat, mode: char, names: seq<string>)
    requires Sound(s) && i < |s.channels| && AllOnePrefix(s.info, names)
    ensures DataBut(s, AddNames(OpenNames(s, i, ModeText(mode)), i, names), i)
  {
    hide Sound, AllOnePrefix, AddNames, ClearMembers;
    var s1 := WithChan(s, i, s.channels[i].data.(mode := mode));
    ClearSameData(s1, i);
    AddNamesSameData(OpenNames(s, i, ModeText(mode)), i, names);
  }

  lemma CloseList(s: Net, t: Net, i: nat)
    requires Sound(s) && Sound(t) && Distinct(t) && Closed(s) && i < |s.channels| && DataBut(s, t, i)
    ensures var r := WithChan(t, i, t.channels[i].data.(namreplyStarted := false));
            Closed(r) && Rooms(r) == Rooms(t) && Distinct(r) && MeKey(r) == MeKey(t)
  {
    var r := WithChan(t, i, t.channels[i].data.(namreplyStarted := false));
    WithChanSameWho(t, i, t.channels[i].data.(namreplyStarted := false));
    QuietIfSameWho(t, r);
    QuietRooms(t, r);
  }

  /** Every item does to the receiver what its effect says. */
  lemma ItemHeard(s: Net, info: Info, m: map<string, set<string>>, me: string, p: Peer, item: Item, now: int)
    requires Represents(s, info, m, me) && ItemOk(info, m, item) && PeerOk(p)
    ensures var ls := LinesOf(p, item);
            && Legible(ls) && Accepted(s, Heard(ls, now))
            && Represents(Run(s, Heard(ls, now)), info, Effect(info, m, me, item), me)
  {
    hide Represents, PlainMask, PlainChan, QuietOk, ListOk, Accepted, Run, Legible;
    match item {
      case Leaves(mask, chan) => LeavesHeard(s, info, m, me, p, mask, chan, now);
      case Joins(mask, chan) => JoinsHeard(s, info, m, me, p, mask, chan, now);
      case Renames(mask, to) => RenamesHeard(s, info, m, me, p, mask, to, now);
      case Quiet(line) => QuietHeard(s, info, m, me, p, line, now);
      case Lists(mode, chan, chunks) => ListsHeard(s, info, m, me, p, mode, chan, chunks, now);
    }
  }
}
