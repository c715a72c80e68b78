/** The ban, invite and except lists. A snapshot carries their entries but not which of them are
    known to be complete (`present`), and MODE changes only a complete list. So lists are compared
    letter by letter: what a stored line does to the list of a letter depends on that list, on its
    presence, and on what `Views` keeps. */
module Lists {
  import opened Base
  import opened Casemap
  import opened Info
  import opened Line
  import opened State
  import opened Handlers
  import opened Views

  /** How closely two lists agree: entry for entry; entry for entry but for the times; or in how
      often they hold each mask. The last two come with equal presence. */
  datatype Grain = Exact | Untimed | Counted

  function Timeless(es: seq<ListEntry>): (r: seq<ListEntry>)
    ensures |r| == |es| && forall k :: 0 <= k < |r| ==> r[k] == es[k].(timeSet := 0)
  {
    seq(|es|, k requires 0 <= k < |es| => es[k].(timeSet := 0))
  }

  /** The masks of a list, each as often as it is there. */
  function Masks(es: seq<ListEntry>): (r: multiset<string>)
    ensures |r| == |es|
  {
    if es == [] then multiset{} else multiset{es[0].hostmask} + Masks(es[1..])
  }

  predicate SameEntries(x: seq<ListEntry>, y: seq<ListEntry>, g: Grain) {
    match g
    case Exact => x == y
    case Untimed => Timeless(x) == Timeless(y)
    case Counted => Masks(x) == Masks(y)
  }

  predicate SameList(d: ChanData, e: ChanData, m: char, g: Grain) {
    SameEntries(Entries(d, m), Entries(e, m), g) && (!g.Exact? ==> (m in d.present <==> m in e.present))
  }

  predicate SameLists(a: Net, b: Net, m: char, g: Grain) {
    |a.channels| == |b.channels| &&
    forall i :: 0 <= i < |a.channels| ==> SameList(a.channels[i].data, b.channels[i].data, m, g)
  }

  lemma SameListsRefl(s: Net, m: char, g: Grain)
    ensures SameLists(s, s, m, g)
  {}

  lemma SameListsSym(a: Net, b: Net, m: char, g: Grain)
    requires SameLists(a, b, m, g)
    ensures SameLists(b, a, m, g)
  {
    forall i | 0 <= i < |b.channels|
      ensures SameList(b.channels[i].data, a.channels[i].data, m, g)
    {
      assert SameList(a.channels[i].data, b.channels[i].data, m, g);
    }
  }

  lemma SameListsTrans(a: Net, b: Net, c: Net, m: char, g: Grain)
    requires SameLists(a, b, m, g) && SameLists(b, c, m, g)
    ensures SameLists(a, c, m, g)
  {}

  /** A closer agreement is a looser one too. */
  lemma {:induction false} UntimedIsCounted(x: seq<ListEntry>, y: seq<ListEntry>)
    requires Timeless(x) == Timeless(y)
    ensures Masks(x) == Masks(y)
  {
    assert |x| == |Timeless(x)| == |y|;
    if x != [] {
      assert Timeless(x)[0] == Timeless(y)[0];
      assert Timeless(x[1..]) == Timeless(x)[1..] && Timeless(y[1..]) == Timeless(y)[1..];
      UntimedIsCounted(x[1..], y[1..]);
    }
  }

  lemma SameListsCounted(a: Net, b: Net, m: char)
    requires SameLists(a, b, m, Untimed)
    ensures SameLists(a, b, m, Counted)
  {
    forall i | 0 <= i < |a.channels|
      ensures SameList(a.channels[i].data, b.channels[i].data, m, Counted)
    {
      assert SameList(a.channels[i].data, b.channels[i].data, m, Untimed);
      UntimedIsCounted(Entries(a.channels[i].data, m), Entries(b.channels[i].data, m));
    }
  }

  // ------------------------------------------------------------- lines that touch no list

  /** The same channels with the same lists. */
  predicate KeepsLists(s: Net, r: Net) {
    |r.channels| == |s.channels| && forall i :: 0 <= i < |s.channels| ==>
      r.channels[i].data.lists == s.channels[i].data.lists && r.channels[i].data.present == s.channels[i].data.present
  }

  lemma KeptLists(a: Net, b: Net, x: Net, y: Net, m: char, g: Grain)
    requires SameLists(a, b, m, g) && KeepsLists(a, x) && KeepsLists(b, y)
    ensures SameLists(x, y, m, g)
  {
    forall i | 0 <= i < |x.channels|
      ensures SameList(x.channels[i].data, y.channels[i].data, m, g)
    {
      assert SameList(a.channels[i].data, b.channels[i].data, m, g);
      assert Entries(x.channels[i].data, m) == Entries(a.channels[i].data, m);
      assert Entries(y.channels[i].data, m) == Entries(b.channels[i].data, m);
    }
  }

  lemma KeepsThen(s: Net, t: Net, r: Net)
    requires KeepsLists(s, t) && KeepsLists(t, r)
    ensures KeepsLists(s, r)
  {}

  lemma DropMemberKeepsLists(s: Net, i: nat, j: nat)
    requires Sound(s) && i < |s.channels| && j < |s.channels[i].members|
    ensures KeepsLists(s, DropMember(s, i, j))
  {}

  lemma {:induction false} ClearKeepsLists(s: Net, i: nat)
    requires Sound(s) && i < |s.channels|
    ensures KeepsLists(s, ClearMembers(s, i))
    decreases |s.channels[i].members|
  {
    if s.channels[i].members != [] {
      DropMemberKeepsLists(s, i, 0);
      hide DropMember, Sound;
      ClearKeepsLists(DropMember(s, i, 0), i);
    }
  }

  lemma AddMemberKeepsLists(s: Net, i: nat, name: string)
    requires Sound(s) && i < |s.channels| && OnePrefix(s.info, name)
    ensures KeepsLists(s, AddMember(s, i, name))
  {
    hide Sound, FindMember, FindPerson, OnePrefix, PrefixMode, StripPrefix;
  }

  lemma {:induction false} AddNamesKeepsLists(s: Net, i: nat, names: seq<string>)
    requires Sound(s) && i < |s.channels| && AllOnePrefix(s.info, names)
    ensures KeepsLists(s, AddNames(s, i, names))
    decreases |names|
  {
    hide Sound, AddMember, OnePrefix, KeepsLists;
    if names != [] {
      if names[0] == "" { KeepsSame(s); } else { AddMemberKeepsLists(s, i, names[0]); }
      var s1 := if names[0] == "" then s else AddMember(s, i, names[0]);
      AddNamesKeepsLists(s1, i, names[1..]);
      KeepsThen(s, s1, AddNames(s, i, names));
    } else {
      KeepsSame(s);
    }
  }

  lemma KeepsSame(s: Net)
    ensures KeepsLists(s, s)
  {}

  lemma NamReplyKeepsLists(s: Net, i: nat, mode: string, names: seq<string>)
    requires Sound(s) && i < |s.channels| && AllOnePrefix(s.info, names)
    ensures KeepsLists(s, NamReply(s, i, mode, names))
  {
    hide Sound, AddNames, ClearMembers, OnePrefix;
    ClearKeepsLists(WithChan(s, i, s.channels[i].data.(mode := if mode == "" then '\0' else mode[0])), i);
    assert KeepsLists(s, OpenNames(s, i, mode));
    AddNamesKeepsLists(OpenNames(s, i, mode), i, names);
  }

  lemma QuitKeepsLists(s: Net, nick: string)
    requires Sound(s)
    ensures KeepsLists(s, Quit(s, nick))
  {}

  // --------------------------------------------------------- lines that move whole channels

  lemma DropChanLists(a: Net, b: Net, i: nat, m: char, g: Grain)
    requires Sound(a) && Sound(b) && i < |a.channels| && SameLists(a, b, m, g)
    ensures i < |b.channels| && SameLists(DropChan(a, i), DropChan(b, i), m, g)
  {
    ClearKeepsLists(a, i);
    ClearKeepsLists(b, i);
    KeptLists(a, b, ClearMembers(a, i), ClearMembers(b, i), m, g);
    hide ClearMembers, SameList, Sound;
  }

  lemma AddChanLists(a: Net, b: Net, name: string, m: char, g: Grain)
    requires Alike(a, b) && SameLists(a, b, m, g)
    ensures SameLists(AddChan(a, name), AddChan(b, name), m, g)
  {
    AlikeFinds(a, b, name);
    hide Alike, FindChan, SameEntries;
  }

  lemma JoinOneLists(a: Net, b: Net, name: string, origin: string, m: char, g: Grain)
    requires Alike(a, b) && Sound(a) && Sound(b) && '!' in origin && OnePrefix(a.info, NickPart(origin))
    requires SameLists(a, b, m, g)
    ensures OnePrefix(b.info, NickPart(origin)) && SameLists(JoinOne(a, name, origin), JoinOne(b, name, origin), m, g)
  {
    AlikeParts(a, b);
    AddChanLists(a, b, name, m, g);
    JoinKeepsAdded(a, name, origin);
    JoinKeepsAdded(b, name, origin);
    KeptLists(AddChan(a, name), AddChan(b, name), JoinOne(a, name, origin), JoinOne(b, name, origin), m, g);
  }

  lemma JoinKeepsAdded(s: Net, name: string, origin: string)
    requires Sound(s) && '!' in origin && OnePrefix(s.info, NickPart(origin))
    ensures KeepsLists(AddChan(s, name), JoinOne(s, name, origin))
  {
    hide Sound, FindChan, FindMember, SetHostmask, AddMember, OnePrefix;
    AddMemberKeepsLists(AddChan(s, name), FindChan(s, name), NickPart(origin));
  }

  lemma {:induction false} JoinAllLists(a: Net, b: Net, names: seq<string>, origin: string, m: char, g: Grain)
    requires Alike(a, b) && Sound(a) && Sound(b) && '!' in origin && OnePrefix(a.info, NickPart(origin))
    requires SameLists(a, b, m, g)
    ensures OnePrefix(b.info, NickPart(origin)) && SameLists(JoinAll(a, names, origin), JoinAll(b, names, origin), m, g)
    decreases |names|
  {
    hide Alike, Sound, JoinOne, SameLists, OnePrefix;
    AlikeParts(a, b);
    if names != [] {
      AlikeJoinOne(a, b, names[0], origin);
      JoinOneLists(a, b, names[0], origin, m, g);
      JoinAllLists(JoinOne(a, names[0], origin), JoinOne(b, names[0], origin), names[1..], origin, m, g);
    }
  }

  lemma PartOneLists(a: Net, b: Net, name: string, nick: string, m: char, g: Grain)
    requires Alike(a, b) && Sound(a) && Sound(b) && SameLists(a, b, m, g)
    ensures SameLists(PartOne(a, name, nick), PartOne(b, name, nick), m, g)
    ensures SameLists(KickOne(a, name, nick), KickOne(b, name, nick), m, g)
  {
    hide Alike, SameLists, DropMember, DropChan, Sound, FindMember, IsMe;
    AlikeParts(a, b);
    AlikeFinds(a, b, name);
    var i := FindChan(a, name);
    if i < |a.channels| {
      AlikeFindsMember(a, b, i, nick);
      var j := FindMember(a, i, nick);
      AlikeIsMe(a, b, nick);
      DropChanLists(a, b, i, m, g);
      if j < |a.channels[i].members| {
        var x, y := DropMember(a, i, j), DropMember(b, i, j);
        AlikeDropMember(a, b, i, j);
        AlikeIsMe(x, y, nick);
        DropMemberKeepsLists(a, i, j);
        DropMemberKeepsLists(b, i, j);
        KeptLists(a, b, x, y, m, g);
        DropChanLists(x, y, i, m, g);
      }
    }
  }

  lemma {:induction false} PartAllLists(a: Net, b: Net, names: seq<string>, nick: string, m: char, g: Grain)
    requires Alike(a, b) && Sound(a) && Sound(b) && SameLists(a, b, m, g)
    ensures SameLists(PartAll(a, names, nick), PartAll(b, names, nick), m, g)
    decreases |names|
  {
    hide Alike, Sound, PartOne, KickOne, SameLists;
    if names != [] {
      AlikePartOne(a, b, names[0], nick);
      PartOneLists(a, b, names[0], nick, m, g);
      PartAllLists(PartOne(a, names[0], nick), PartOne(b, names[0], nick), names[1..], nick, m, g);
    }
  }

  lemma {:induction false} KickAllLists(a: Net, b: Net, names: seq<string>, nicks: seq<string>, m: char, g: Grain)
    requires Alike(a, b) && Sound(a) && Sound(b) && SameLists(a, b, m, g)
    ensures SameLists(KickAll(a, names, nicks), KickAll(b, names, nicks), m, g)
    decreases |names|
  {
    hide Alike, Sound, PartOne, KickOne, SameLists;
    if names != [] && nicks != [] {
      AlikePartOne(a, b, names[0], nicks[0]);
      PartOneLists(a, b, names[0], nicks[0], m, g);
      KickAllLists(KickOne(a, names[0], nicks[0]), KickOne(b, names[0], nicks[0]), names[1..], nicks[1..], m, g);
    }
  }

  // -------------------------------------------------------------------------------- MODE

  lemma {:induction false} MasksSnoc(es: seq<ListEntry>, e: ListEntry)
    ensures Masks(es + [e]) == Masks(es) + multiset{e.hostmask}
  {
    if es != [] {
      assert (es + [e])[1..] == es[1..] + [e];
      MasksSnoc(es[1..], e);
    } else {
      assert es + [e] == [e] && [e][1..] == [];
    }
  }

  lemma {:induction false} MasksWithout(es: seq<ListEntry>, mask: string)
    ensures Masks(RemoveEntry(es, mask)) == Masks(es) - multiset{mask}
  {
    if es != [] && es[0].hostmask != mask {
      MasksWithout(es[1..], mask);
      assert ([es[0]] + RemoveEntry(es[1..], mask))[1..] == RemoveEntry(es[1..], mask);
    }
  }

  lemma {:induction false} TimelessWithout(x: seq<ListEntry>, y: seq<ListEntry>, mask: string)
    requires Timeless(x) == Timeless(y)
    ensures Timeless(RemoveEntry(x, mask)) == Timeless(RemoveEntry(y, mask))
  {
    assert |x| == |Timeless(x)| == |y|;
    if x != [] {
      assert Timeless(x)[0] == Timeless(y)[0];
      assert Timeless(x[1..]) == Timeless(x)[1..] && Timeless(y[1..]) == Timeless(y)[1..];
      TimelessWithout(x[1..], y[1..], mask);
      TimelessCons(x[0], RemoveEntry(x[1..], mask));
      TimelessCons(y[0], RemoveEntry(y[1..], mask));
    }
  }

  lemma TimelessCons(e: ListEntry, es: seq<ListEntry>)
    ensures Timeless([e] + es) == [e.(timeSet := 0)] + Timeless(es)
  {}

  /** Adding and removing a mask keep the lists as close as they were, if presence agrees. */
  lemma EntriesChange(x: seq<ListEntry>, y: seq<ListEntry>, e: ListEntry, f: ListEntry, g: Grain)
    requires SameEntries(x, y, g) && !g.Exact? && e == f.(timeSet := e.timeSet)
    ensures SameEntries(x + [e], y + [f], g)
    ensures SameEntries(RemoveEntry(x, e.hostmask), RemoveEntry(y, e.hostmask), g)
  {
    if g.Untimed? {
      assert Timeless(x + [e]) == Timeless(x) + [e.(timeSet := 0)];
      assert Timeless(y + [f]) == Timeless(y) + [e.(timeSet := 0)];
      TimelessWithout(x, y, e.hostmask);
    } else {
      MasksSnoc(x, e);
      MasksSnoc(y, f);
      MasksWithout(x, e.hostmask);
      MasksWithout(y, e.hostmask);
    }
  }

  /** What a list letter does to the data of a channel. */
  function ListChange(d: ChanData, setter: Option<string>, on: bool, c: char, mask: string, now: int): (r: ChanData)
    ensures r.present == d.present && forall m :: m != c ==> Entries(r, m) == Entries(d, m)
  {
    if c !in d.present then d
    else if on then d.(lists := d.lists[c := Entries(d, c) + [ListEntry(mask, setter, now)]])
    else d.(lists := d.lists[c := RemoveEntry(Entries(d, c), mask)])
  }

  lemma ListChangeSame(d: ChanData, e: ChanData, setter: Option<string>, on: bool, c: char, mask: string, n1: int,
                       n2: int,
                       m: char, g: Grain)
    requires SameList(d, e, m, g) && (g.Exact? ==> c != m)
    ensures SameList(ListChange(d, setter, on, c, mask, n1), ListChange(e, setter, on, c, mask, n2), m, g)
  {
    hide SameEntries, RemoveEntry;
    var x, y := ListChange(d, setter, on, c, mask, n1), ListChange(e, setter, on, c, mask, n2);
    if c != m {
      assert Entries(x, m) == Entries(d, m) && Entries(y, m) == Entries(e, m);
    } else if c in d.present {
      hide SameList;
      EntriesChange(Entries(d, m), Entries(e, m), ListEntry(mask, setter, n1), ListEntry(mask, setter, n2), g);
    }
  }

  lemma ChangeListIs(s: Net, setter: Option<string>, i: nat, on: bool, c: char, mask: string, now: int)
    requires i < |s.channels|
    ensures ChangeList(s, setter, i, on, c, Some(mask), now).state ==
            WithChan(s, i, ListChange(s.channels[i].data, setter, on, c, mask, now))
  {
    WithSameChan(s, i);
    hide WithChan, RemoveEntry;
  }

  lemma WithChanLists(a: Net, b: Net, i: nat, d: ChanData, e: ChanData, m: char, g: Grain)
    requires i < |a.channels| && SameLists(a, b, m, g) && SameList(d, e, m, g)
    ensures i < |b.channels| && SameLists(WithChan(a, i, d), WithChan(b, i, e), m, g)
  {
    hide SameList;
  }

  /** A letter that is no list letter leaves the lists. */
  lemma OtherModeKeepsLists(s: Net, setter: Option<string>, i: nat, on: bool, c: char, arg: Option<string>, now: int)
    requires Sound(s) && i < |s.channels| && ChanmodesOk(s.info) && (ChanmodeType(s.info, c) != ListMode || arg.None?)
    ensures KeepsLists(s, ChangeMode(s, setter, i, on, c, arg, now).state)
  {
    hide Sound, ChanmodesOk, ChanmodeType, IsPrefixMode, FindMember, ToggleMode;
  }

  lemma ChangeModeLists(a: Net, b: Net, setter: Option<string>, i: nat, on: bool, c: char, arg: Option<string>,
                        n1: int, n2: int,
                        m: char, g: Grain)
    requires Sound(a) && Sound(b) && i < |a.channels| && ChanmodesOk(a.info) && SameLists(a, b, m, g)
    requires a.info == b.info && (g.Exact? && c == m ==> ChanmodeType(a.info, c) != ListMode)
    ensures i < |b.channels|
    ensures SameLists(ChangeMode(a, setter, i, on, c, arg, n1).state, ChangeMode(b, setter, i, on, c, arg, n2).state,
                      m, g)
  {
    if ChanmodeType(a.info, c) == ListMode && arg.Some? {
      var d, e := a.channels[i].data, b.channels[i].data;
      ChangeListIs(a, setter, i, on, c, arg.value, n1);
      ChangeListIs(b, setter, i, on, c, arg.value, n2);
      hide ChangeList, Sound, ChanmodesOk, ListChange, WithChan;
      ListChangeSame(d, e, setter, on, c, arg.value, n1, n2, m, g);
      WithChanLists(a, b, i, ListChange(d, setter, on, c, arg.value, n1), ListChange(e, setter, on, c, arg.value, n2),
                    m, g);
    } else {
      OtherModeKeepsLists(a, setter, i, on, c, arg, n1);
      OtherModeKeepsLists(b, setter, i, on, c, arg, n2);
      hide ChangeMode, Sound, ChanmodesOk, KeepsLists, SameList;
      KeptLists(a, b, ChangeMode(a, setter, i, on, c, arg, n1).state, ChangeMode(b, setter, i, on, c, arg, n2).state,
                m, g);
    }
  }

  lemma {:induction false} ModeLoopLists(a: Net, b: Net, setter: Option<string>, i: nat, modes: string,
                                         args: seq<string>,
                                         arg: nat, on: bool, n1: int, n2: int, m: char, g: Grain)
    requires Alike(a, b) && Sound(a) && Sound(b) && i < |a.channels| && ChanmodesOk(a.info) && SameLists(a, b, m, g)
    requires g.Exact? ==> ChanmodeType(a.info, m) != ListMode || m !in modes
    ensures i < |b.channels| && ChanmodesOk(b.info)
    ensures SameLists(ModeLoop(a, setter, i, modes, args, arg, on, n1),
                      ModeLoop(b, setter, i, modes, args, arg, on, n2), m, g)
    decreases |modes|
  {
    hide Alike, Sound, ChangeMode, ChanmodesOk, ChanmodeType, SameLists;
    AlikeParts(a, b);
    if modes == "" {
    } else if modes[0] == '+' {
      ModeLoopLists(a, b, setter, i, modes[1..], args, arg, true, n1, n2, m, g);
    } else if modes[0] == '-' {
      ModeLoopLists(a, b, setter, i, modes[1..], args, arg, false, n1, n2, m, g);
    } else {
      ChangeModeLists(a, b, setter, i, on, modes[0], Nth(args, arg), n1, n2, m, g);
      AlikeChangeMode(a, b, setter, i, on, modes[0], Nth(args, arg), n1, n2);
      var x := ChangeMode(a, setter, i, on, modes[0], Nth(args, arg), n1);
      var y := ChangeMode(b, setter, i, on, modes[0], Nth(args, arg), n2);
      if x.taken.Some? {
        ModeLoopLists(x.state, y.state, setter, i, modes[1..], args,
                      if arg < |args| then arg + x.taken.value else arg, on, n1, n2, m, g);
      }
    }
  }

  /** A line that may change the list of a letter: a channel MODE line that names it. */
  predicate TouchesList(info: Info, l: Line, m: char) {
    && CommandOf(l) == MODE && Complete(l) && info.chantypes.Some? && IsChannelName(info, l.args[1])
    && m in l.args[2] && ChanmodesOk(info) && ChanmodeType(info, m) == ListMode
  }

  lemma ModeLineLists(a: Net, b: Net, l: Line, n1: int, n2: int, m: char, g: Grain)
    requires Alike(a, b) && Sound(a) && Sound(b) && Accepts(a, l) && Accepts(b, l) && CommandOf(l) == MODE
    requires Complete(l)
    requires SameLists(a, b, m, g) && (g.Exact? ==> !TouchesList(a.info, l, m))
    ensures SameLists(ModeLine(a, l, n1), ModeLine(b, l, n2), m, g)
  {
    hide Alike, Sound, ModeLoop, ChanmodesOk, ChanmodeType, SameLists, CommandNamed;
    AlikeParts(a, b);
    AlikeFinds(a, b, l.args[1]);
    if IsChannelName(a.info, l.args[1]) {
      var i := FindChan(a, l.args[1]);
      if i < |a.channels| {
        AlikeFinds(a, b, NickPart(l.origin.value));
        ModeLoopLists(a, b, SetterOf(a, NickPart(l.origin.value)), i, l.args[2], l.args, 3, true, n1, n2, m, g);
      }
    } else {
      KeptLists(a, b, ModeLine(a, l, n1), ModeLine(b, l, n2), m, g);
    }
  }

  // -------------------------------------------------------------------------------- steps

  lemma TopicKeepsLists(d: ChanData, l: Line, now: int)
    requires Complete(l) && DataArgsOk(l)
    requires CommandOf(l) == TOPIC || CommandOf(l) == N331 || CommandOf(l) == N332 || CommandOf(l) == N333
    ensures DataChange(d, l, now).lists == d.lists && DataChange(d, l, now).present == d.present
  {
    hide CommandNamed, StringToModes, StrtolAuto, Atoi, ListReply, ListEnd;
  }

  lemma ModeIsKeepsLists(d: ChanData, l: Line, now: int)
    requires Complete(l) && DataArgsOk(l) && (CommandOf(l) == N324 || CommandOf(l) == N329 || CommandOf(l) == N366)
    ensures DataChange(d, l, now).lists == d.lists && DataChange(d, l, now).present == d.present
  {
    hide CommandNamed, StringToModes, StrtolAuto, Atoi, ListReply, ListEnd;
  }

  lemma DataChangeKeepsLists(d: ChanData, l: Line, now: int)
    requires IsDataLine(CommandOf(l)) && Complete(l) && DataArgsOk(l) && IsStored(CommandOf(l))
    ensures DataChange(d, l, now).lists == d.lists && DataChange(d, l, now).present == d.present
  {
    hide DataChange, CommandNamed;
    var c := CommandOf(l);
    if c == TOPIC || c == N331 || c == N332 || c == N333 {
      TopicKeepsLists(d, l, now);
    } else {
      ModeIsKeepsLists(d, l, now);
    }
  }

  lemma DataStepKeepsLists(s: Net, l: Line, now: int)
    requires Sound(s) && Accepts(s, l) && IsDataLine(CommandOf(l)) && Complete(l) && IsStored(CommandOf(l))
    ensures KeepsLists(s, DataStep(s, l, now))
  {
    hide Sound, DataChange, CommandNamed;
    if CommandOf(l) != TOPIC || l.origin.Some? {
      var i := FindChan(s, DataTarget(l));
      if i < |s.channels| { DataChangeKeepsLists(s.channels[i].data, l, now); }
    }
  }

  lemma MemberStepLists(a: Net, b: Net, l: Line, n1: int, n2: int, m: char, g: Grain)
    requires Alike(a, b) && Sound(a) && Sound(b) && Accepts(a, l) && Accepts(b, l) && SameLists(a, b, m, g)
    requires IsMemberLine(CommandOf(l)) && Complete(l) && IsStored(CommandOf(l))
    ensures SameLists(MemberStep(a, l, n1), MemberStep(b, l, n2), m, g)
  {
    hide Alike, Sound, JoinAll, PartAll, KickAll, Quit, NamReply, OnePrefix, SameLists, CommandNamed;
    AlikeParts(a, b);
    var args := l.args;
    match CommandOf(l) {
      case JOIN => if l.origin.Some? { JoinAllLists(a, b, StrSplit(args[1], ','), l.origin.value, m, g); }
      case PART => if l.origin.Some? { PartAllLists(a, b, StrSplit(args[1], ','), NickPart(l.origin.value), m, g); }
      case KICK => if l.origin.Some? { KickAllLists(a, b, StrSplit(args[1], ','), StrSplit(args[2], ','), m, g); }
      case QUIT =>
        if l.origin.Some? {
          QuitKeepsLists(a, NickPart(l.origin.value));
          QuitKeepsLists(b, NickPart(l.origin.value));
          KeptLists(a, b, MemberStep(a, l, n1), MemberStep(b, l, n2), m, g);
        }
      case N353 =>
        AlikeFinds(a, b, args[3]);
        if KnownChan(a, args[3]) {
          NamReplyKeepsLists(a, FindChan(a, args[3]), args[2], StrSplit(args[4], ' '));
          NamReplyKeepsLists(b, FindChan(b, args[3]), args[2], StrSplit(args[4], ' '));
          KeptLists(a, b, MemberStep(a, l, n1), MemberStep(b, l, n2), m, g);
        }
    }
  }

  lemma OtherStepKeepsLists(s: Net, l: Line, now: int)
    requires Sound(s) && Accepts(s, l) && Complete(l) && IsStored(CommandOf(l)) && CommandOf(l) != MODE
    requires !IsMemberLine(CommandOf(l)) && !IsDataLine(CommandOf(l))
    ensures KeepsLists(s, OtherStep(s, l, now))
  {
    hide Sound, CommandNamed, SetNick;
  }

  /** What a stored line does to the list of a letter depends on that list and the view alone; a
      line that does not touch it need not even agree on its presence. */
  lemma StepLists(a: Net, b: Net, l: Line, n1: int, n2: int, m: char, g: Grain)
    requires Alike(a, b) && Sound(a) && Sound(b) && IsStored(CommandOf(l)) && Accepts(a, l)
    requires SameLists(a, b, m, g) && (g.Exact? ==> !TouchesList(a.info, l, m))
    ensures Accepts(b, l) && SameLists(Step(a, l, n1), Step(b, l, n2), m, g)
  {
    AlikeAccepts(a, b, l);
    hide Alike, Sound, Accepts, DataStep, MemberStep, SameLists, KeepsLists, IsStored, TouchesList, CommandOf;
    if Complete(l) {
      if IsDataLine(CommandOf(l)) {
        DataStepKeepsLists(a, l, n1);
        DataStepKeepsLists(b, l, n2);
        KeptLists(a, b, DataStep(a, l, n1), DataStep(b, l, n2), m, g);
      } else if IsMemberLine(CommandOf(l)) {
        MemberStepLists(a, b, l, n1, n2, m, g);
      } else if CommandOf(l) == MODE {
        hide ModeLine;
        ModeLineLists(a, b, l, n1, n2, m, g);
      } else {
        hide OtherStep;
        OtherStepKeepsLists(a, l, n1);
        OtherStepKeepsLists(b, l, n2);
        KeptLists(a, b, OtherStep(a, l, n1), OtherStep(b, l, n2), m, g);
      }
    }
  }

  /** Over a replay, at other times, from a state with the same view. */
  lemma {:induction false} RunLists(a: Net, b: Net, x: seq<Event>, y: seq<Event>, m: char, g: Grain)
    requires Alike(a, b) && Sound(a) && Sound(b) && SameLines(x, y) && Accepted(a, x) && SameLists(a, b, m, g)
    requires g.Exact? ==> forall k :: 0 <= k < |x| ==> !TouchesList(a.info, x[k].line, m)
    ensures Accepted(b, y) && SameLists(Run(a, x), Run(b, y), m, g)
    decreases |x|
  {
    hide Alike, Sound, Accepts, Step, SameLists, TouchesList;
    if x != [] {
      assert IsStored(CommandOf(x[0].line));
      StoredKeepsInfo(a, x[0].line, x[0].now);
      StepAlike(a, b, x[0].line, x[0].now, y[0].now);
      StepLists(a, b, x[0].line, x[0].now, y[0].now, m, g);
      hide IsStored, CommandOf;
      RunLists(Step(a, x[0].line, x[0].now), Step(b, y[0].line, y[0].now), x[1..], y[1..], m, g);
    }
  }

  lemma StoredKeepsInfo(s: Net, l: Line, now: int)
    requires Sound(s) && Accepts(s, l) && IsStored(CommandOf(l))
    ensures Step(s, l, now).info == s.info
  {
    hide Sound, Accepts, Step, CommandNamed;
  }
}
