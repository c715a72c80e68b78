/** A channel MODE line read as a list of directives: what handle_mode does is what applying
    the directives one after the other does. */
module Modes {
  import opened Base
  import opened Info
  import opened State
  import opened Handlers

  /** One mode letter with its sign. */
  datatype Signed = Signed(on: bool, letter: char)

  /** A signed letter and the argument it is offered. */
  datatype Directive = Directive(on: bool, letter: char, arg: Option<string>)

  /** The letters of a mode string, each with the sign in force. */
  function SignedLetters(modes: string, on: bool): (r: seq<Signed>)
    decreases |modes|
  {
    if modes == "" then []
    else if modes[0] == '+' then SignedLetters(modes[1..], true)
    else if modes[0] == '-' then SignedLetters(modes[1..], false)
    else [Signed(on, modes[0])] + SignedLetters(modes[1..], on)
  }

  /** The four groups of CHANMODES: lists, settings with an argument both ways, settings with one only
      when set, and flags. */
  function Groups(info: Info): (g: seq<string>) {
    if info.chanmodes.Some? then info.chanmodes.value else ["beI", "k", "l", "imnpsta"]
  }

  /** The arity of a letter: list modes, prefix modes and unknown modes always take an argument,
      settings only when they are set, and flags never. */
  predicate TakesArgument(info: Info, d: Signed)
    requires ChanmodesOk(info)
  {
    var g := Groups(info);
    if d.letter in g[0] then true
    else if d.letter in g[1] || d.letter in g[2] then d.on
    else IsPrefixMode(info, d.letter) || d.letter !in g[3]
  }

  function Arity(info: Info, ds: seq<Signed>): (n: nat)
    requires ChanmodesOk(info)
    ensures n <= |ds|
  {
    if ds == [] then 0 else (if TakesArgument(info, ds[0]) then 1 else 0) + Arity(info, ds[1..])
  }

  /** The `k`-th letter is offered the argument after those the letters before it take. */
  function Directives(info: Info, ds: seq<Signed>, args: seq<string>, first: nat): (r: seq<Directive>)
    requires ChanmodesOk(info)
  {
    seq(|ds|, k requires 0 <= k < |ds| =>
      Directive(ds[k].on, ds[k].letter, Nth(args, first + Arity(info, ds[..k]))))
  }

  /** Directives applied in order, up to the first that is refused. */
  function ApplyModes(s: Net, setter: Option<string>, i: nat, ds: seq<Directive>, now: int): (r: Net)
    requires Sound(s) && i < |s.channels| && ChanmodesOk(s.info)
    decreases |ds|
  {
    if ds == [] then s
    else
      var c := ChangeMode(s, setter, i, ds[0].on, ds[0].letter, ds[0].arg, now);
      if c.taken.None? then s else ApplyModes(c.state, setter, i, ds[1..], now)
  }

  /** A change that is not refused takes as many arguments as its letter's arity says, and a
      refused one changes nothing. */
  lemma ChangeTakesArity(s: Net, setter: Option<string>, i: nat, d: Signed, arg: Option<string>, now: int)
    requires Sound(s) && i < |s.channels| && ChanmodesOk(s.info)
    ensures var c := ChangeMode(s, setter, i, d.on, d.letter, arg, now);
            && (c.taken.None? ==> c.state == s && (arg.Some? ==> IsPrefixMode(s.info, d.letter)))
            && (c.taken.Some? ==> c.taken.value == if TakesArgument(s.info, d) then 1 else 0)
  {}

  // -------------------------------------------------------------------- what a letter does

  /** A letter of PREFIX is a prefix mode, and no other letter is. */
  lemma PrefixLetters(info: Info, modes: string, symbols: string, m: char)
    requires MatchedPrefix(info, modes, symbols) && ' ' !in symbols
    ensures IsPrefixMode(info, m) <==> m in modes
  {
    MatchedPrefixParts(info, modes, symbols);
    var k := FirstSymbolFrom(info.prefix, modes, symbols, {m}, 0);
  }

  /** A list letter with an argument changes the list of that letter if the list is complete. */
  lemma ListLetter(s: Net, setter: Option<string>, i: nat, on: bool, m: char, arg: Option<string>, now: int)
    requires Sound(s) && i < |s.channels| && ChanmodesOk(s.info) && m in Groups(s.info)[0]
    ensures var c, d := ChangeMode(s, setter, i, on, m, arg, now), s.channels[i].data;
            && (arg.None? ==> c == Change(s, None))
            && (arg.Some? && m !in d.present ==> c == Change(s, Some(1)))
            && (arg.Some? && m in d.present && on ==>
                  c == Change(WithChan(s, i,
                                       d.(lists := d.lists[m := Entries(d, m) + [ListEntry(arg.value, setter, now)]])),
                              Some(1)))
            && (arg.Some? && m in d.present && !on ==>
                  c == Change(WithChan(s, i, d.(lists := d.lists[m := RemoveEntry(Entries(d, m), arg.value)])),
                              Some(1)))
  {}

  /** A setting keeps its argument when it is set, and forgets it, without an argument, when it is not. */
  lemma SettingLetter(s: Net, setter: Option<string>, i: nat, on: bool, m: char, arg: Option<string>, now: int)
    requires Sound(s) && i < |s.channels| && ChanmodesOk(s.info)
    requires var g := Groups(s.info); m !in g[0] && (m in g[1] || m in g[2])
    ensures var c, d := ChangeMode(s, setter, i, on, m, arg, now), s.channels[i].data;
            && (on && arg.None? ==> c == Change(s, None))
            && (on && arg.Some? ==> c == Change(WithChan(s, i, d.(options := d.options[m := arg.value])), Some(1)))
            && (!on ==> c == Change(WithChan(s, i, d.(options := d.options - {m})), Some(0)))
  {}

  /** A prefix letter changes that flag of the member its argument names, and is refused without one. */
  lemma PrefixLetter(s: Net, setter: Option<string>, i: nat, on: bool, m: char, arg: Option<string>, now: int,
                     modes: string, symbols: string)
    requires Sound(s) && i < |s.channels| && ChanmodesOk(s.info)
    requires MatchedPrefix(s.info, modes, symbols) && ' ' !in symbols && m in modes
    requires var g := Groups(s.info); m !in g[0] && m !in g[1] && m !in g[2]
    ensures var c, ms := ChangeMode(s, setter, i, on, m, arg, now), s.channels[i].members;
            && (arg.None? || FindMember(s, i, arg.value) == |ms| ==> c == Change(s, None))
            && (arg.Some? && FindMember(s, i, arg.value) < |ms| ==>
                  var j := FindMember(s, i, arg.value);
                  var flags := if on then ms[j].modes + {m} else ms[j].modes - {m};
                  c == Change(WithMembers(s, i, ms[j := ms[j].(modes := flags)]), Some(1)))
  {
    hide FindMember, PrefixByMode;
    PrefixLetters(s.info, modes, symbols, m);
  }

  /** A flag is set or cleared without an argument; a letter nobody announced only eats one. */
  lemma FlagLetter(s: Net, setter: Option<string>, i: nat, on: bool, m: char, arg: Option<string>, now: int,
                   modes: string, symbols: string)
    requires Sound(s) && i < |s.channels| && ChanmodesOk(s.info)
    requires MatchedPrefix(s.info, modes, symbols) && ' ' !in symbols && m !in modes
    requires var g := Groups(s.info); m !in g[0] && m !in g[1] && m !in g[2]
    ensures var c, d := ChangeMode(s, setter, i, on, m, arg, now), s.channels[i].data;
            && (m in Groups(s.info)[3] ==>
                  c == Change(WithChan(s, i, d.(modes := if on then d.modes + {m} else d.modes - {m})), Some(0)))
            && (m !in Groups(s.info)[3] ==> c == Change(s, Some(1)))
  {
    hide PrefixByMode;
    PrefixLetters(s.info, modes, symbols, m);
  }

  /** What is assumed of a network that has not announced anything. */
  lemma FreshLetters()
    ensures MatchedPrefix(FRESH, "ov", "@+") && FRESH.chantypes == Some("#&") && ChanmodesOk(FRESH)
    ensures Groups(FRESH) == ["beI", "k", "l", "imnpsta"]
  {
    assert "(" + "ov" + ")" + "@+" == "(ov)@+";
  }

  // ---------------------------------------------------------------------------- user modes

  /** The last sign a letter is given. */
  function LastSign(ds: seq<Signed>, c: char): (on: Option<bool>) {
    if ds == [] then None
    else if ds[|ds| - 1].letter == c then Some(ds[|ds| - 1].on)
    else LastSign(ds[..|ds| - 1], c)
  }

  lemma {:induction false} LastSignCons(d: Signed, ds: seq<Signed>, c: char)
    ensures LastSign([d] + ds, c) ==
            if LastSign(ds, c).Some? then LastSign(ds, c) else if d.letter == c then Some(d.on) else None
    decreases |ds|
  {
    var all := [d] + ds;
    if ds == [] {
      assert all[..|all| - 1] == [];
    } else {
      assert all[|all| - 1] == ds[|ds| - 1] && all[..|all| - 1] == [d] + ds[..|ds| - 1];
      LastSignCons(d, ds[..|ds| - 1], c);
    }
  }

  /** User modes: each letter is as its last sign says, and as before without one. */
  lemma {:induction false} UserModesAre(modes: set<char>, text: string, on: bool, c: char)
    ensures var sign := LastSign(SignedLetters(text, on), c);
            c in UserModes(modes, text, on) <==> if sign.Some? then sign.value else c in modes
    decreases |text|
  {
    if text == "" {
    } else if text[0] == '+' {
      UserModesAre(modes, text[1..], true, c);
    } else if text[0] == '-' {
      UserModesAre(modes, text[1..], false, c);
    } else {
      UserModesAre(ToggleMode(modes, on, text[0]), text[1..], on, c);
      LastSignCons(Signed(on, text[0]), SignedLetters(text[1..], on), c);
    }
  }

  /** A mode text: the letters whose last sign is a plus, if it starts with a sign at all. */
  lemma ModeTextIs(text: string, c: char)
    ensures c in StringToModes(text) <==>
            text != "" && (text[0] == '+' || text[0] == '-') && LastSign(SignedLetters(text, true), c) == Some(true)
  {
    UserModesAre({}, text, true, c);
  }

  /** Taking a mask off a list takes its first entry and leaves the others in order. */
  lemma {:induction false} RemovesFirst(es: seq<ListEntry>, mask: string, k: nat)
    requires k <= |es| && (forall j :: 0 <= j < k ==> es[j].hostmask != mask)
    requires k < |es| ==> es[k].hostmask == mask
    ensures RemoveEntry(es, mask) == if k < |es| then Without(es, k) else es
  {
    if k > 0 {
      RemovesFirst(es[1..], mask, k - 1);
      assert es == [es[0]] + es[1..];
      assert k < |es| ==> Without(es, k) == [es[0]] + Without(es[1..], k - 1);
    }
  }

  // ------------------------------------------------------------------------------ the fold

  lemma {:induction false} DirectivesStep(info: Info, ds: seq<Signed>, args: seq<string>, first: nat)
    requires ChanmodesOk(info) && ds != []
    ensures var next := first + if TakesArgument(info, ds[0]) then 1 else 0;
            Directives(info, ds, args, first) ==
            [Directive(ds[0].on, ds[0].letter, Nth(args, first))] + Directives(info, ds[1..], args, next)
  {
    hide TakesArgument, ChanmodesOk, Nth;
    var next := first + if TakesArgument(info, ds[0]) then 1 else 0;
    var l, r := Directives(info, ds, args, first), Directives(info, ds[1..], args, next);
    forall k | 0 < k < |ds|
      ensures l[k] == r[k - 1]
    {
      assert ds[..k][0] == ds[0] && ds[..k][1..] == ds[1..][..k - 1];
    }
    assert ds[..0] == [];
  }

  lemma NoDirectives(info: Info, args: seq<string>, first: nat)
    requires ChanmodesOk(info)
    ensures Directives(info, [], args, first) == []
  {}

  /** Arguments beyond the last are all absent alike. */
  lemma DirectivesPast(info: Info, ds: seq<Signed>, args: seq<string>, a: nat, b: nat)
    requires ChanmodesOk(info) && |args| <= a && |args| <= b
    ensures Directives(info, ds, args, a) == Directives(info, ds, args, b)
  {}

  /** handle_mode on a channel is the fold over its directives. */
  lemma {:induction false} ModeIsFold(s: Net, setter: Option<string>, i: nat, modes: string, args: seq<string>,
                                      arg: nat, on: bool, now: int)
    requires Sound(s) && i < |s.channels| && ChanmodesOk(s.info)
    ensures ModeLoop(s, setter, i, modes, args, arg, on, now) ==
            ApplyModes(s, setter, i, Directives(s.info, SignedLetters(modes, on), args, arg), now)
    decreases |modes|
  {
    hide Sound, Directives, TakesArgument, ChanmodesOk, ChangeMode, IsPrefixMode;
    if modes == "" {
      assert Directives(s.info, [], args, arg) == [] by { NoDirectives(s.info, args, arg); }
    } else if modes[0] == '+' {
      ModeIsFold(s, setter, i, modes[1..], args, arg, true, now);
    } else if modes[0] == '-' {
      ModeIsFold(s, setter, i, modes[1..], args, arg, false, now);
    } else {
      var ds := SignedLetters(modes, on);
      var c := ChangeMode(s, setter, i, on, modes[0], Nth(args, arg), now);
      ChangeTakesArity(s, setter, i, ds[0], Nth(args, arg), now);
      DirectivesStep(s.info, ds, args, arg);
      assert ds[1..] == SignedLetters(modes[1..], on);
      if c.taken.Some? {
        var next := if arg < |args| then arg + c.taken.value else arg;
        ModeIsFold(c.state, setter, i, modes[1..], args, next, on, now);
        if arg >= |args| {
          DirectivesPast(s.info, ds[1..], args, next, arg + c.taken.value);
        }
      }
    }
  }
}
