/** Handling a stored line once more, lists included. The live caller applies a line before it stores
    it, so a snapshot taken with a line contains it already and the replay handles it again. That is
    harmless exactly when the line is no NICK that renames and no MODE that would change how often some
    mask is on a list; a mode string changes those numbers like `n` to `max(n + balance, least)`. */
module Settling {
  import opened Base
  import opened Casemap
  import opened Info
  import opened Line
  import opened State
  import opened Handlers
  import opened Modes
  import opened Unique
  import opened Views
  import opened Lists
  import opened Marshal
  import opened LogFiles
  import opened Linestack
  import opened Replay
  import opened Repeats

  // ------------------------------------------------------------------- list operations

  /** A mask put on the list of a letter, or taken off it. */
  datatype ListOp = ListOp(on: bool, letter: char, mask: string)

  function OpOf(s: Net, i: nat, on: bool, m: char, arg: Option<string>): (r: seq<ListOp>)
    requires i < |s.channels| && ChanmodesOk(s.info)
  {
    if ChanmodeType(s.info, m) == ListMode && arg.Some? && m in s.channels[i].data.present
    then [ListOp(on, m, arg.value)] else []
  }

  /** What a mode string does to complete lists, up to the first letter refused. */
  function ListOps(s: Net, i: nat, modes: string, args: seq<string>, arg: nat, on: bool): (r: seq<ListOp>)
    requires Sound(s) && i < |s.channels| && ChanmodesOk(s.info)
    decreases |modes|
  {
    if modes == "" then []
    else if modes[0] == '+' then ListOps(s, i, modes[1..], args, arg, true)
    else if modes[0] == '-' then ListOps(s, i, modes[1..], args, arg, false)
    else if WriteOf(s, i, on, modes[0], Nth(args, arg)).None? then []
    else
      OpOf(s, i, on, modes[0], Nth(args, arg)) +
      ListOps(s, i, modes[1..], args, NextArgument(s.info, args, arg, on, modes[0]), on)
  }

  predicate IsAbout(o: ListOp, m: char, mask: string) { o.letter == m && o.mask == mask }

  function AppliedOne(o: ListOp, m: char, mask: string, c: nat): (n: nat) {
    if !IsAbout(o, m, mask) then c else if o.on then c + 1 else if c == 0 then 0 else c - 1
  }

  /** How often a mask is on a list after the operations, if it was there `c` times. */
  function Applied(ops: seq<ListOp>, m: char, mask: string, c: nat): (n: nat) {
    if ops == [] then c
    else Applied(ops[1..], m, mask, AppliedOne(ops[0], m, mask, c))
  }

  /** How much more often it is put on than taken off. */
  function Balance(ops: seq<ListOp>, m: char, mask: string): (n: int) {
    if ops == [] then 0
    else Balance(ops[1..], m, mask) + if !IsAbout(ops[0], m, mask) then 0 else if ops[0].on then 1 else -1
  }

  /** The largest balance of any tail of the operations. */
  function Least(ops: seq<ListOp>, m: char, mask: string): (n: nat)
    ensures n >= Balance(ops, m, mask)
  {
    if ops == [] then 0
    else
      var b, n := Balance(ops, m, mask), Least(ops[1..], m, mask);
      if b > n then b else n
  }

  /** The closed form of the operations. */
  lemma {:induction false} AppliedIs(ops: seq<ListOp>, m: char, mask: string, c: nat)
    ensures var n := c + Balance(ops, m, mask);
            Applied(ops, m, mask, c) == if n > Least(ops, m, mask) then n else Least(ops, m, mask)
  {
    if ops != [] {
      var o := ops[0];
      AppliedIs(ops[1..], m, mask, AppliedOne(o, m, mask, c));
    }
  }

  lemma {:induction false} AppliedTo(x: seq<ListOp>, y: seq<ListOp>, m: char, mask: string, c: nat)
    ensures Applied(x + y, m, mask, c) == Applied(y, m, mask, Applied(x, m, mask, c))
  {
    if x == [] {
      assert x + y == y;
    } else {
      assert (x + y)[1..] == x[1..] + y;
      var o := x[0];
      AppliedTo(x[1..], y, m, mask, AppliedOne(o, m, mask, c));
    }
  }

  /** Put on as often as taken off; or taken off more often, and already down to what the string leaves
      at least. */
  predicate Settles(ops: seq<ListOp>, m: char, mask: string, c: nat) {
    var b := Balance(ops, m, mask);
    b == 0 || (b < 0 && c + b <= Least(ops, m, mask))
  }

  lemma AppliedTwiceIff(ops: seq<ListOp>, m: char, mask: string, c: nat)
    ensures var n := Applied(ops, m, mask, c); Applied(ops, m, mask, n) == n <==> Settles(ops, m, mask, c)
  {
    AppliedIs(ops, m, mask, c);
    AppliedIs(ops, m, mask, Applied(ops, m, mask, c));
  }

  lemma {:induction false} AppliedToOthers(ops: seq<ListOp>, m: char, mask: string, c: nat)
    requires forall k :: 0 <= k < |ops| ==> !IsAbout(ops[k], m, mask)
    ensures Applied(ops, m, mask, c) == c
  {
    if ops != [] { AppliedToOthers(ops[1..], m, mask, c); }
  }

  // --------------------------------------------------------------------- the mode string

  /** How often a mask is on a list of a channel. */
  function Held(s: Net, i: nat, m: char, mask: string): (n: nat)
    requires i < |s.channels|
  {
    Masks(Entries(s.channels[i].data, m))[mask]
  }

  lemma ListChangeIs(d: ChanData, setter: Option<string>, on: bool, c: char, arg: string, now: int)
    ensures var r := ListChange(d, setter, on, c, arg, now);
            && (c !in d.present ==> r == d)
            && (c in d.present && on ==> Entries(r, c) == Entries(d, c) + [ListEntry(arg, setter, now)])
            && (c in d.present && !on ==> Entries(r, c) == RemoveEntry(Entries(d, c), arg))
  {
    hide RemoveEntry;
  }

  lemma ListChangeHeld(d: ChanData, setter: Option<string>, on: bool, c: char, arg: string, now: int, m: char,
                       mask: string)
    ensures var r, n := ListChange(d, setter, on, c, arg, now), Masks(Entries(d, m))[mask];
            Masks(Entries(r, m))[mask] == Applied(if c in d.present then [ListOp(on, c, arg)] else [], m, mask, n)
  {
    if c in d.present && c == m {
      MasksSnoc(Entries(d, c), ListEntry(arg, setter, now));
      MasksWithout(Entries(d, c), arg);
    }
    hide RemoveEntry, Masks, ListChange;
    var r := ListChange(d, setter, on, c, arg, now);
    ListChangeIs(d, setter, on, c, arg, now);
    var ops := [ListOp(on, c, arg)];
    assert ops[1..] == [];
  }

  /** One letter, on a state `t` that differs from `s` by mode letters. */
  lemma ChangeHeld(s: Net, t: Net, setter: Option<string>, i: nat, on: bool, c: char, arg: Option<string>, now: int,
                   m: char, mask: string)
    requires Sound(t) && i < |s.channels| && ChanmodesOk(s.info) && Frame(s, t, i)
    ensures i < |t.channels| && ChanmodesOk(t.info)
    ensures Held(ChangeMode(t, setter, i, on, c, arg, now).state, i, m, mask) ==
            Applied(OpOf(s, i, on, c, arg), m, mask, Held(t, i, m, mask))
  {
    if ChanmodeType(s.info, c) == ListMode && arg.Some? {
      ChangeListIs(t, setter, i, on, c, arg.value, now);
      ListChangeHeld(t.channels[i].data, setter, on, c, arg.value, now, m, mask);
      hide ChangeList, Sound, ChanmodesOk, Applied, Masks, ListChange;
      WithChanIs(t, i, ListChange(t.channels[i].data, setter, on, c, arg.value, now));
    } else {
      OtherModeKeepsLists(t, setter, i, on, c, arg, now);
      hide ChangeMode, Sound, ChanmodesOk, Masks;
    }
  }

  lemma WithChanIs(s: Net, i: nat, d: ChanData)
    requires i < |s.channels|
    ensures |WithChan(s, i, d).channels| == |s.channels| && WithChan(s, i, d).channels[i].data == d
  {}

  lemma {:induction false} LoopHeld(s: Net, t: Net, setter: Option<string>, i: nat, modes: string, args: seq<string>,
                                    arg: nat, on: bool, now: int, m: char, mask: string)
    requires Sound(s) && Sound(t) && i < |s.channels| && ChanmodesOk(s.info) && Frame(s, t, i)
    ensures i < |t.channels| && ChanmodesOk(t.info)
    ensures Held(ModeLoop(t, setter, i, modes, args, arg, on, now), i, m, mask) ==
            Applied(ListOps(s, i, modes, args, arg, on), m, mask, Held(t, i, m, mask))
    decreases |modes|
  {
    hide Sound, ChangeMode, ChanmodesOk, Wrote, WriteOf, Frame, TakesArgument, Held, OpOf;
    FrameInfo(s, t, i);
    if modes == "" {
    } else if modes[0] == '+' {
      LoopHeld(s, t, setter, i, modes[1..], args, arg, true, now, m, mask);
    } else if modes[0] == '-' {
      LoopHeld(s, t, setter, i, modes[1..], args, arg, false, now, m, mask);
    } else {
      var c := ChangeMode(t, setter, i, on, modes[0], Nth(args, arg), now);
      FrameWrites(s, t, i, on, modes[0], Nth(args, arg));
      ModeWrites(t, setter, i, on, modes[0], Nth(args, arg), now);
      ChangeTakesArity(t, setter, i, Signed(on, modes[0]), Nth(args, arg), now);
      if c.taken.Some? {
        ChangeHeld(s, t, setter, i, on, modes[0], Nth(args, arg), now, m, mask);
        FrameThen(s, t, c.state, i, WriteOf(s, i, on, modes[0], Nth(args, arg)).value);
        var next := NextArgument(s.info, args, arg, on, modes[0]);
        LoopHeld(s, c.state, setter, i, modes[1..], args, next, on, now, m, mask);
        AppliedTo(OpOf(s, i, on, modes[0], Nth(args, arg)), ListOps(s, i, modes[1..], args, next, on), m, mask,
                  Held(t, i, m, mask));
      }
    }
  }

  // ------------------------------------------------------------------- lines handled twice

  /** Handling the line would change neither the view nor how often a mask is on a list. */
  ghost predicate Settled(s: Net, l: Line, now: int)
    requires Sound(s)
  {
    Idempotent(s, l, now) && forall m: char :: SameLists(Step(s, l, now), s, m, Counted)
  }

  predicate IsChannelMode(s: Net, l: Line)
    requires Sound(s) && Accepts(s, l)
  {
    CommandOf(l) == MODE && Complete(l) && IsChannelName(s.info, l.args[1]) && KnownChan(s, l.args[1])
  }

  /** What the line does to the complete lists of its channel. */
  function LineOps(s: Net, l: Line): (r: seq<ListOp>)
    requires Sound(s) && Accepts(s, l) && IsChannelMode(s, l)
  {
    ListOps(s, FindChan(s, l.args[1]), l.args[2], l.args, 3, true)
  }

  /** No mask the line names would change its number a second time. */
  predicate ListsSettle(s: Net, l: Line)
    requires Sound(s) && Accepts(s, l)
  {
    IsChannelMode(s, l) ==>
      var i, ops := FindChan(s, l.args[1]), LineOps(s, l);
      forall k :: 0 <= k < |ops| ==>
        Settles(ops, ops[k].letter, ops[k].mask, Held(s, i, ops[k].letter, ops[k].mask))
  }

  lemma HeldIsSameList(s: Net, r: Net, i: nat, m: char)
    requires i < |s.channels| && Frame(s, r, i)
    ensures SameLists(r, s, m, Counted) <==> forall mask: string :: Held(r, i, m, mask) == Held(s, i, m, mask)
  {
    var x, y := Masks(Entries(r.channels[i].data, m)), Masks(Entries(s.channels[i].data, m));
    if forall mask: string :: Held(r, i, m, mask) == Held(s, i, m, mask) {
      forall mask: string ensures x[mask] == y[mask] { assert Held(r, i, m, mask) == Held(s, i, m, mask); }
      assert x == y;
      forall j | 0 <= j < |r.channels|
        ensures SameList(r.channels[j].data, s.channels[j].data, m, Counted)
      {}
    }
    if SameLists(r, s, m, Counted) {
      assert SameList(r.channels[i].data, s.channels[i].data, m, Counted);
    }
  }

  /** A mode string handled twice leaves every list as often filled as once, if and only if every
      operation settles. */
  lemma LoopSettlesIff(s: Net, setter: Option<string>, i: nat, modes: string, args: seq<string>, now: int)
    requires Sound(s) && i < |s.channels| && ChanmodesOk(s.info)
    ensures var r, ops := ModeLoop(s, setter, i, modes, args, 3, true, now), ListOps(s, i, modes, args, 3, true);
            (forall m: char :: SameLists(ModeLoop(r, setter, i, modes, args, 3, true, now), r, m, Counted)) <==>
            (forall k :: 0 <= k < |ops| ==>
             Settles(ops, ops[k].letter, ops[k].mask, Held(s, i, ops[k].letter, ops[k].mask)))
  {
    hide Sound, ModeLoop, ChanmodesOk, ListOps, Held, Frame, Settles, SameLists, Wrote, WritesOf;
    var r, ops := ModeLoop(s, setter, i, modes, args, 3, true, now), ListOps(s, i, modes, args, 3, true);
    WroteNothing(s, i);
    LoopWrites(s, s, setter, i, modes, args, 3, true, now);
    FrameThen(s, s, r, i, WritesOf(s, i, modes, args, 3, true));
    LoopWrites(s, r, setter, i, modes, args, 3, true, now);
    var q := ModeLoop(r, setter, i, modes, args, 3, true, now);
    WroteNothing(r, i);
    FrameThen(r, r, q, i, WritesOf(s, i, modes, args, 3, true));
    forall m: char, mask: string
      ensures Held(q, i, m, mask) == Held(r, i, m, mask) <==> Settles(ops, m, mask, Held(s, i, m, mask))
      ensures (forall k :: 0 <= k < |ops| ==> !IsAbout(ops[k], m, mask)) ==> Held(q, i, m, mask) == Held(r, i, m, mask)
    {
      HeldTwice(s, setter, i, modes, args, now, m, mask);
    }
    forall m: char
      ensures SameLists(q, r, m, Counted) <==> forall mask: string :: Held(q, i, m, mask) == Held(r, i, m, mask)
    {
      HeldIsSameList(r, q, i, m);
    }
    if forall m: char :: SameLists(q, r, m, Counted) {
      forall k | 0 <= k < |ops|
        ensures Settles(ops, ops[k].letter, ops[k].mask, Held(s, i, ops[k].letter, ops[k].mask))
      {
        assert SameLists(q, r, ops[k].letter, Counted);
        assert Held(q, i, ops[k].letter, ops[k].mask) == Held(r, i, ops[k].letter, ops[k].mask);
      }
    }
  }

  lemma HeldTwice(s: Net, setter: Option<string>, i: nat, modes: string, args: seq<string>, now: int, m: char,
                  mask: string)
    requires Sound(s) && i < |s.channels| && ChanmodesOk(s.info)
    ensures var r, ops := ModeLoop(s, setter, i, modes, args, 3, true, now), ListOps(s, i, modes, args, 3, true);
            var q := ModeLoop(r, setter, i, modes, args, 3, true, now);
            && (Held(q, i, m, mask) == Held(r, i, m, mask) <==> Settles(ops, m, mask, Held(s, i, m, mask)))
            && ((forall k :: 0 <= k < |ops| ==> !IsAbout(ops[k], m, mask)) ==>
                Held(q, i, m, mask) == Held(r, i, m, mask))
  {
    hide Sound, ModeLoop, ChanmodesOk, ListOps, Held, Frame, Settles, Wrote, WritesOf, Applied;
    var r, ops := ModeLoop(s, setter, i, modes, args, 3, true, now), ListOps(s, i, modes, args, 3, true);
    WroteNothing(s, i);
    LoopWrites(s, s, setter, i, modes, args, 3, true, now);
    FrameThen(s, s, r, i, WritesOf(s, i, modes, args, 3, true));
    LoopHeld(s, s, setter, i, modes, args, 3, true, now, m, mask);
    LoopHeld(s, r, setter, i, modes, args, 3, true, now, m, mask);
    AppliedTwiceIff(ops, m, mask, Held(s, i, m, mask));
    if forall k :: 0 <= k < |ops| ==> !IsAbout(ops[k], m, mask) {
      AppliedToOthers(ops, m, mask, Held(s, i, m, mask));
      AppliedToOthers(ops, m, mask, Held(r, i, m, mask));
    }
  }

  /** A channel MODE line, twice, is its mode string twice. */
  lemma ModeLineIs(s: Net, l: Line, now: int)
    requires Sound(s) && Accepts(s, l) && IsChannelMode(s, l)
    ensures ChanmodesOk(s.info) && l.origin.Some?
    ensures var i, setter, r := FindChan(s, l.args[1]), SetterOf(s, NickPart(l.origin.value)), ModeLine(s, l, now);
            && r == ModeLoop(s, setter, i, l.args[2], l.args, 3, true, now) && Accepts(r, l)
            && ModeLine(r, l, now) == ModeLoop(r, setter, i, l.args[2], l.args, 3, true, now)
  {
    hide Sound, CommandNamed, ModeLoop, HasPrefix, Alike;
    var i, setter := FindChan(s, l.args[1]), SetterOf(s, NickPart(l.origin.value));
    ModesTwice(s, setter, i, l.args[2], l.args, now);
    var r := ModeLoop(s, setter, i, l.args[2], l.args, 3, true, now);
    assert ChanNames(r.channels) == ChanNames(s.channels) && r.people == s.people;
  }

  /** A MODE line handled twice. */
  lemma ModeSettlesIff(s: Net, l: Line, now: int)
    requires Sound(s) && Accepts(s, l) && Complete(l) && CommandOf(l) == MODE
    ensures var r := ModeLine(s, l, now);
            Accepts(r, l) && ((forall m: char :: SameLists(ModeLine(r, l, now), r, m, Counted)) <==> ListsSettle(s, l))
  {
    hide Sound, CommandNamed, ChanmodesOk, Settles, Held, ListOps, SameLists, Alike;
    var r := ModeLine(s, l, now);
    ModeTwice(s, l, now);
    if IsChannelMode(s, l) {
      ModeLineIs(s, l, now);
      var i, setter, ops := FindChan(s, l.args[1]), SetterOf(s, NickPart(l.origin.value)), LineOps(s, l);
      assert ops == ListOps(s, i, l.args[2], l.args, 3, true);
      hide ModeLine, Accepts, ModeLoop, LineOps;
      LoopSettlesIff(s, setter, i, l.args[2], l.args, now);
      assert ListsSettle(s, l) <==> forall k :: 0 <= k < |ops| ==>
          Settles(ops, ops[k].letter, ops[k].mask, Held(s, i, ops[k].letter, ops[k].mask));
    } else {
      OtherModeLine(s, l, now);
      hide ModeLine, Accepts;
      forall m: char
        ensures SameLists(ModeLine(r, l, now), r, m, Counted)
      {
        SameListsRefl(r, m, Counted);
        KeepsSame(r);
        KeptLists(r, r, ModeLine(r, l, now), r, m, Counted);
      }
    }
  }

  lemma OtherModeLine(s: Net, l: Line, now: int)
    requires Sound(s) && Accepts(s, l) && Complete(l) && CommandOf(l) == MODE && !IsChannelMode(s, l)
    ensures var r := ModeLine(s, l, now); Accepts(r, l) && KeepsLists(r, ModeLine(r, l, now))
  {
    hide Sound, CommandNamed, Alike, UserModes, HasPrefix;
    ModeTwice(s, l, now);
  }

  /** A stored line may be handled twice, exactly when it is no NICK line that takes effect and no MODE
      line that would change how often a mask is on a list. */
  lemma StoredTwiceIff(s: Net, l: Line, now: int)
    requires Sound(s) && Distinct(s) && Accepts(s, l) && IsStored(CommandOf(l)) && PlainJoin(s, l)
    ensures Settled(Step(s, l, now), l, now) <==> !Renames(s, l) && ListsSettle(s, l)
  {
    hide Sound, Distinct, CommandNamed, Alike, Accepts, Eq, HasPrefix, ModeLine, SameLists, LineOps, Settles;
    var r := Step(s, l, now);
    ViewTwiceIff(s, l, now);
    if CommandOf(l) == MODE && Complete(l) {
      ModeSettlesIff(s, l, now);
      assert r == ModeLine(s, l, now);
    } else if CommandOf(l) == MODE {
      assert r == s;
      forall m: char ensures SameLists(r, r, m, Counted) { SameListsRefl(r, m, Counted); }
    } else {
      forall m: char ensures SameLists(r, r, m, Counted) { SameListsRefl(r, m, Counted); }
    }
  }

  /** A ban handled twice is on the list once more than a ban handled once, in states with the same view:
      the other line, besides NICK, that a snapshot must not contain already. */
  lemma BanTwice(s: Net, l: Line, chan: string, mask: string, now: int)
    requires Sound(s) && l.args == ["MODE", chan, "+b", mask] && Accepts(s, l) && KnownChan(s, chan)
    requires IsChannelName(s.info, chan)
    requires ChanmodeType(s.info, 'b') == ListMode && 'b' in s.channels[FindChan(s, chan)].data.present
    ensures !Renames(s, l) && Idempotent(Step(s, l, now), l, now) && !Settled(Step(s, l, now), l, now)
    ensures var i, n, r := FindChan(s, chan), Held(s, FindChan(s, chan), 'b', mask), Step(s, l, now);
            |r.channels| == |Step(r, l, now).channels| == |s.channels| &&
            Held(r, i, 'b', mask) == n + 1 && Held(Step(r, l, now), i, 'b', mask) == n + 2
  {
    hide Sound, CommandNamed, Accepts, ModeLine, Alike, SameLists, FindChan, Held, IsChannelName, ModeLoop, ChanmodesOk;
    assert CommandOf(l) == MODE by { ModeWord(); }
    ModeTwice(s, l, now);
    ModeLineIs(s, l, now);
    var i, r := FindChan(s, chan), Step(s, l, now);
    assert r == ModeLine(s, l, now) && Step(r, l, now) == ModeLine(r, l, now);
    PlusBTwice(s, SetterOf(s, NickPart(l.origin.value)), i, l.args, now);
    if Settled(r, l, now) {
      assert SameLists(Step(r, l, now), r, 'b', Counted);
      SameIsHeld(Step(r, l, now), r, i, 'b', mask);
    }
  }

  lemma PlusBTwice(s: Net, setter: Option<string>, i: nat, args: seq<string>, now: int)
    requires Sound(s) && i < |s.channels| && ChanmodesOk(s.info) && |args| == 4
    requires ChanmodeType(s.info, 'b') == ListMode && 'b' in s.channels[i].data.present
    ensures var r, n := ModeLoop(s, setter, i, "+b", args, 3, true, now), Held(s, i, 'b', args[3]);
            && Held(r, i, 'b', args[3]) == n + 1
            && Held(ModeLoop(r, setter, i, "+b", args, 3, true, now), i, 'b', args[3]) == n + 2
  {
    PlusB(s, i, args);
    hide Sound, ListOps, Held, ModeLoop, ChanmodesOk, Frame, Wrote, WritesOf;
    var r, ops := ModeLoop(s, setter, i, "+b", args, 3, true, now), [ListOp(true, 'b', args[3])];
    assert ops[1..] == [];
    WroteNothing(s, i);
    LoopWrites(s, s, setter, i, "+b", args, 3, true, now);
    FrameThen(s, s, r, i, WritesOf(s, i, "+b", args, 3, true));
    LoopHeld(s, s, setter, i, "+b", args, 3, true, now, 'b', args[3]);
    LoopHeld(s, r, setter, i, "+b", args, 3, true, now, 'b', args[3]);
  }

  lemma SameIsHeld(s: Net, r: Net, i: nat, m: char, mask: string)
    requires SameLists(s, r, m, Counted) && i < |s.channels|
    ensures i < |r.channels| && Held(s, i, m, mask) == Held(r, i, m, mask)
  {
    assert SameList(s.channels[i].data, r.channels[i].data, m, Counted);
  }

  lemma ModeWord()
    ensures CommandNamed("MODE") == MODE
  {
    AsciiEqRefl("MODE");
    AsciiNe("JOIN", "MODE");
    AsciiNe("PART", "MODE");
    AsciiNe("KICK", "MODE");
    AsciiNe("QUIT", "MODE");
    AsciiNe("TOPIC", "MODE");
    AsciiNe("NICK", "MODE");
    AsciiNe("PRIVMSG", "MODE");
  }

  lemma PlusB(s: Net, i: nat, args: seq<string>)
    requires Sound(s) && i < |s.channels| && ChanmodesOk(s.info) && |args| == 4
    requires ChanmodeType(s.info, 'b') == ListMode && 'b' in s.channels[i].data.present
    ensures ListOps(s, i, "+b", args, 3, true) == [ListOp(true, 'b', args[3])]
  {
    hide Sound, ChanmodesOk, TakesArgument;
    assert "+b"[1..] == "b" && "b"[1..] == "";
    var next := NextArgument(s.info, args, 3, true, 'b');
    assert ListOps(s, i, "", args, next, true) == [];
    assert OpOf(s, i, true, 'b', Nth(args, 3)) == [ListOp(true, 'b', args[3])];
    assert ListOps(s, i, "b", args, 3, true) == [ListOp(true, 'b', args[3])] + [];
  }

  // ------------------------------------------------------------------ snapshots taken live

  lemma FoldFrom(s0: Net, log: seq<Entry>, k: nat, m: nat)
    requires Replayable(s0, log) && k <= m <= |log|
    ensures Recoverable(log) && Accepted(StateAfter(s0, log, k), Events(log, k, m))
    ensures Run(StateAfter(s0, log, k), Events(log, k, m)) == StateAfter(s0, log, m)
  {
    FoldSplit(s0, log, k, m);
    hide Sound, Accepted, Run, Recoverable, AllStored, Default;
  }

  /** The fold, one line further. */
  lemma OneMore(s0: Net, log: seq<Entry>, k: nat)
    requires Replayable(s0, log) && k < |log|
    ensures |log[k].line.args| >= 1
    ensures var s, l := StateAfter(s0, log, k), Reread(log[k].line);
            Accepts(s, l) && StateAfter(s0, log, k + 1) == Step(s, l, log[k].time) && IsStored(CommandOf(l))
  {
    LineIsStored(s0, log, k);
    FoldFrom(s0, log, k, k + 1);
    hide Sound, Recoverable, Replayable, Accepts, Step, IsStored, PrintsColon, CommandOf, StateAfter;
    EventsCons(log, k, k + 1);
    RunOne(StateAfter(s0, log, k), Events(log, k, k + 1));
  }

  lemma RunOne(s: Net, es: seq<Event>)
    requires Sound(s) && Accepted(s, es) && |es| == 1
    ensures Accepts(s, es[0].line) && Run(s, es) == Step(s, es[0].line, es[0].now)
  {
    hide Sound, Accepts, Step;
    assert es[1..] == [];
  }

  /** Line `k` as it is read back, handled once more on `s` at the time it was stored. */
  ghost predicate SettledOn(s: Net, log: seq<Entry>, k: nat)
    requires Sound(s) && Recoverable(log) && k < |log|
  {
    Settled(s, Reread(log[k].line), log[k].time)
  }

  /** The line `k` that is about to be handled, and whether it may be handled twice. */
  ghost predicate Repeatable(s: Net, log: seq<Entry>, k: nat)
    requires Sound(s) && Recoverable(log) && k < |log| && Accepts(s, Reread(log[k].line))
  {
    !Renames(s, Reread(log[k].line)) && ListsSettle(s, Reread(log[k].line))
  }

  /** A snapshot that looks like the state with line `k` handled, where that line does not rename: a
      rebuild can start from it. */
  lemma ViewSnapshotOk(s0: Net, log: seq<Entry>, k: nat, before: Net, snap: Net)
    requires Replayable(s0, log) && k < |log| && Sound(before) && Distinct(before)
    requires Alike(before, StateAfter(s0, log, k)) && Sound(snap) && LineSeen(log, k, before, Default(snap))
    requires PlainJoin(before, Reread(log[k].line)) && !Renames(before, Reread(log[k].line))
    ensures Alike(Default(snap), StateAfter(s0, log, k + 1)) && SnapshotOk(s0, log, k, snap)
  {
    hide Sound, Distinct, Alike, PlainJoin, Renames, Idempotent, Recoverable, IsStored, StateAfter, Accepts, Step;
    hide Replayable, CommandOf, PrintsColon;
    OneMore(s0, log, k);
    var f, l, t := StateAfter(s0, log, k), Reread(log[k].line), log[k].time;
    var after, next := Step(before, l, t), StateAfter(s0, log, k + 1);
    StepAlike(before, f, l, t, t);
    AlikeTrans(Default(snap), after, next);
    ViewTwiceIff(before, l, t);
    IdempotentAlike(after, next, l, t);
  }

  /** The live caller applies a line and then stores it, and passes the state it has then: a state that
      already contains the line. Handling the line once more leaves it as it is, lists included, if and
      only if the line neither renames nor changes the number of a mask again; and unless it renames,
      a rebuild can start from it. */
  lemma LiveSnapshotOk(s0: Net, log: seq<Entry>, k: nat, before: Net, snap: Net)
    requires Replayable(s0, log) && k < |log| && Sound(before) && Distinct(before) && Sound(snap)
    requires Alike(before, StateAfter(s0, log, k)) && LineHandled(log, k, before, Default(snap))
    requires PlainJoin(before, Reread(log[k].line))
    ensures Alike(Default(snap), StateAfter(s0, log, k + 1))
    ensures SettledOn(Default(snap), log, k) <==> Repeatable(before, log, k)
    ensures !Renames(before, Reread(log[k].line)) ==> SnapshotOk(s0, log, k, snap)
  {
    hide Sound, Distinct, Alike, PlainJoin, Renames, Idempotent, Recoverable, IsStored, StateAfter, Accepts, Step;
    hide ListsSettle;
    hide Replayable, CommandOf, PrintsColon, SnapshotOk;
    OneMore(s0, log, k);
    var f, l, t := StateAfter(s0, log, k), Reread(log[k].line), log[k].time;
    StepAlike(before, f, l, t, t);
    StoredTwiceIff(before, l, t);
    AlikeRefl(Default(snap));
    if !Renames(before, l) { ViewSnapshotOk(s0, log, k, before, snap); }
  }

  /** `after` looks like `before` with line `k` handled. */
  ghost predicate LineSeen(log: seq<Entry>, k: nat, before: Net, after: Net)
    requires Recoverable(log) && k < |log| && Sound(before)
  {
    Accepts(before, Reread(log[k].line)) && Alike(after, Step(before, Reread(log[k].line), log[k].time))
  }

  /** `after` is `before` with line `k` handled. */
  ghost predicate LineHandled(log: seq<Entry>, k: nat, before: Net, after: Net)
    requires Recoverable(log) && k < |log| && Sound(before)
  {
    Accepts(before, Reread(log[k].line)) && after == Step(before, Reread(log[k].line), log[k].time)
  }

  lemma IdempotentAlike(a: Net, b: Net, l: Line, now: int)
    requires Sound(a) && Sound(b) && Alike(a, b) && IsStored(CommandOf(l)) && Idempotent(a, l, now)
    ensures Idempotent(b, l, now)
  {
    hide Sound, Alike, Accepts, Step, IsStored, CommandOf;
    StepAlike(a, b, l, now, now);
    var x, y := Step(a, l, now), Step(b, l, now);
    Symmetric(x, y);
    AlikeTrans(y, x, a);
    AlikeTrans(y, a, b);
  }

  /** A rebuild from a snapshot that already contains its line, where that line settles, has every mask
      as often on a list as the snapshot changed by the lines behind that one: for each letter of whose
      presence memory happens to say the same. */
  lemma LiveRebuildLists(s0: Net, log: seq<Entry>, snaps: seq<Net>, m: nat, g: Garbage, now: int, letter: char)
    requires Replayable(s0, log) && m <= |log| && LastSnapshot(m) < m && LastSnapshot(m) / INTERVAL < |snaps|
    requires LiveSnapshot(s0, log, LastSnapshot(m), snaps[LastSnapshot(m) / INTERVAL])
    requires letter as int < 255 && PresenceAgrees(snaps[LastSnapshot(m) / INTERVAL], g, letter)
    ensures ListsSince(snaps[LastSnapshot(m) / INTERVAL], log, LastSnapshot(m) + 1, m,
                       Rebuild(snaps, log, m, g, now), letter)
  {
    hide Sound, Alike, StateAfter, Writable, Settled, GetNet, PutNet, RefilledNet, Accepted, Run, Accepts, Step;
    hide Recoverable, SameLists, AllStored, Rebuild, LastSnapshot, CommandOf, IsStored, PresenceAgrees, Replayable;
    var k := LastSnapshot(m);
    var snap := snaps[k / INTERVAL];
    LiveIsOk(s0, log, k, snap);
    RebuildLists(s0, log, snaps, m, g, now);
    var r := Rebuild(snaps, log, m, g, now).value;
    assert Trusted(snap, log, k, m, g, letter, Untimed);
    var d := Default(snap);
    LineTwice(s0, log, k, m, d, letter);
    SameListsCounted(r, Run(d, Events(log, k, m)), letter);
    SameListsTrans(r, Run(d, Events(log, k, m)), Run(d, Events(log, k + 1, m)), letter, Counted);
  }

  /** A snapshot that contains line `k`, which settles on it. */
  ghost predicate LiveSnapshot(s0: Net, log: seq<Entry>, k: nat, snap: Net)
    requires Replayable(s0, log) && k < |log|
  {
    && Writable(snap) && Sound(Default(snap))
    && Alike(Default(snap), StateAfter(s0, log, k + 1)) && SettledOn(Default(snap), log, k)
  }

  ghost predicate ListsSince(snap: Net, log: seq<Entry>, k: nat, m: nat, r: Option<Net>, letter: char)
    requires Recoverable(log) && k <= m <= |log|
  {
    && r.Some? && Sound(Default(snap)) && Accepted(Default(snap), Events(log, k, m))
    && SameLists(r.value, Run(Default(snap), Events(log, k, m)), letter, Counted)
  }

  lemma LiveIsOk(s0: Net, log: seq<Entry>, k: nat, snap: Net)
    requires Replayable(s0, log) && k < |log| && LiveSnapshot(s0, log, k, snap)
    ensures Recoverable(log) && Sound(snap) && SnapshotOk(s0, log, k, snap)
  {
    hide Sound, Alike, Idempotent, Accepts, Step, IsStored, CommandOf, StateAfter, SameLists;
    WritableSound(snap);
    hide Writable, Recoverable, Accepted;
    LineIsStored(s0, log, k);
    IdempotentAlike(Default(snap), StateAfter(s0, log, k + 1), Reread(log[k].line), log[k].time);
  }

  /** The lines from `k` on, with line `k` once more than needed. */
  lemma LineTwice(s0: Net, log: seq<Entry>, k: nat, m: nat, d: Net, letter: char)
    requires Replayable(s0, log) && k < m <= |log| && Sound(d) && Alike(d, StateAfter(s0, log, k + 1))
    requires SettledOn(d, log, k)
    ensures Accepted(d, Events(log, k, m)) && Accepted(d, Events(log, k + 1, m))
    ensures SameLists(Run(d, Events(log, k, m)), Run(d, Events(log, k + 1, m)), letter, Counted)
  {
    hide Sound, Alike, Accepts, Step, IsStored, CommandOf, StateAfter, SameLists, Accepted, Run, PrintsColon, Storable;
    EventsCons(log, k, m);
    var l, t, rest := Reread(log[k].line), log[k].time, Events(log, k + 1, m);
    StretchAccepts(s0, log, k + 1, m, d);
    var d2 := Step(d, l, t);
    Symmetric(d2, d);
    assert SameLists(d2, d, letter, Counted);
    SameListsSym(d2, d, letter, Counted);
    assert SameLines(rest, rest);
    RunLists(d, d2, rest, rest, letter, Counted);
    AcceptedCons(d, Events(log, k, m));
    SameListsSym(Run(d, rest), Run(d2, rest), letter, Counted);
  }
}
