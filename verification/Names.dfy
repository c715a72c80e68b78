/** client_send_nameslist: the members of a channel packed into as few NAMES replies as can hold them,
    and what a receiver makes of them. */
module Names {
  import opened Base
  import opened Casemap
  import opened Info
  import opened Line
  import opened LineBuffer
  import opened State
  import opened Handlers
  import opened Unique

  /** A member as the sender sees it. */
  datatype Seat = Seat(nick: string, modes: set<char>)

  /** Where replies go and come from. */
  datatype Peer = Peer(origin: Option<string>, target: string)

  /** The nick with its leftmost prefix. */
  function Shown(info: Info, s: Seat): (r: string) {
    var p := PrefixFromModes(info, s.modes);
    if p.Some? then [p.value] + s.nick else s.nick
  }

  function AllShown(info: Info, ss: seq<Seat>): (r: seq<string>)
    ensures |r| == |ss| && forall j :: 0 <= j < |r| ==> r[j] == Shown(info, ss[j])
  {
    seq(|ss|, j requires 0 <= j < |ss| => Shown(info, ss[j]))
  }

  function ModeText(mode: char): (r: string) { if mode == '\0' then "" else [mode] }

  function Header(p: Peer, mode: char, chan: string): (r: seq<string>) { ["353", p.target, ModeText(mode), chan] }

  /** A 353 line as the sender builds it: every name is an argument, the first with a colon. */
  function NamesLine(p: Peer, mode: char, chan: string, names: seq<string>): (l: Line)
    requires names != []
  {
    Line(p.origin, Header(p, mode, chan) + [":" + names[0]] + names[1..], WithoutColon)
  }

  function EndLine(p: Peer, chan: string): (l: Line) {
    Line(p.origin, ["366", p.target, chan, "End of /NAMES list"], ColonUnknown)
  }

  predicate Chunked(chunks: seq<seq<string>>) { forall k :: 0 <= k < |chunks| ==> chunks[k] != [] }

  function Flattened(chunks: seq<seq<string>>): (r: seq<string>) {
    if chunks == [] then [] else chunks[0] + Flattened(chunks[1..])
  }

  lemma {:induction false} ConcatSnoc(chunks: seq<seq<string>>, c: seq<string>)
    ensures Flattened(chunks + [c]) == Flattened(chunks) + c
  {
    if chunks == [] {
      assert chunks + [c] == [c] && [c][1..] == [];
    } else {
      assert (chunks + [c])[1..] == chunks[1..] + [c];
      ConcatSnoc(chunks[1..], c);
    }
  }

  function Lines(p: Peer, mode: char, chan: string, chunks: seq<seq<string>>): (r: seq<Line>)
    requires Chunked(chunks)
    ensures |r| == |chunks| && forall k :: 0 <= k < |r| ==> r[k] == NamesLine(p, mode, chan, chunks[k])
  {
    seq(|chunks|, k requires 0 <= k < |chunks| => NamesLine(p, mode, chan, chunks[k]))
  }

  /** A line of its own has room for each name. */
  predicate EachFits(p: Peer, mode: char, chan: string, names: seq<string>) {
    forall j :: 0 <= j < |names| ==> LineLen(Header(p, mode, chan)) + |names[j]| + 2 <= MAXLINELEN
  }

  function Room(p: Peer): (n: int) { 512 + (if p.origin.Some? then |p.origin.value| else -2) }

  /** Lines finished so far. */
  ghost predicate Packed(p: Peer, mode: char, chan: string, lines: seq<Line>, chunks: seq<seq<string>>) {
    && Chunked(chunks) && lines == Lines(p, mode, chan, chunks)
    && forall k :: 0 <= k < |chunks| ==> |PrintNl(lines[k])| <= Room(p)
  }

  lemma PackedSnoc(p: Peer, mode: char, chan: string, lines: seq<Line>, chunks: seq<seq<string>>, cur: seq<string>)
    requires Packed(p, mode, chan, lines, chunks) && cur != [] && |PrintNl(NamesLine(p, mode, chan, cur))| <= Room(p)
    ensures Packed(p, mode, chan, lines + [NamesLine(p, mode, chan, cur)], chunks + [cur])
    ensures Flattened(chunks + [cur]) == Flattened(chunks) + cur
  {
    hide NamesLine, PrintNl;
    ConcatSnoc(chunks, cur);
  }

  lemma NamesLineGrows(p: Peer, mode: char, chan: string, cur: seq<string>, arg: string)
    ensures NamesLine(p, mode, chan, [arg]) == Line(p.origin, Header(p, mode, chan) + [":" + arg], WithoutColon)
    ensures cur != [] ==>
              NamesLine(p, mode, chan, cur + [arg]) ==
              NamesLine(p, mode, chan, cur).(args := NamesLine(p, mode, chan, cur).args + [arg])
  {
    if cur != [] {
      assert (cur + [arg])[1..] == cur[1..] + [arg];
    }
    assert [arg][1..] == [];
  }

  // ------------------------------------------------------------------------- packing

  /** What names add to the estimated length of a line. */
  function Weight(names: seq<string>): (n: nat) { if names == [] then 0 else |names[0]| + 1 + Weight(names[1..]) }

  /** A 353 line with these names stays within the limit by the estimate that line_add_arg goes by. */
  predicate Fits(p: Peer, mode: char, chan: string, names: seq<string>) {
    LineLen(Header(p, mode, chan)) + 1 + Weight(names) <= MAXLINELEN
  }

  lemma {:induction false} WeightOf(x: seq<string>, y: seq<string>)
    ensures Weight(x + y) == Weight(x) + Weight(y)
  {
    if x == [] {
      assert x + y == y;
    } else {
      assert (x + y)[1..] == x[1..] + y;
      WeightOf(x[1..], y);
    }
  }

  lemma {:induction false} LineLenOf(x: seq<string>, y: seq<string>)
    ensures LineLen(x + y) == LineLen(x) + Weight(y)
  {
    if x == [] {
      assert x + y == y;
      LineLenIs(y);
    } else {
      assert (x + y)[1..] == x[1..] + y;
      LineLenOf(x[1..], y);
    }
  }

  lemma {:induction false} LineLenIs(y: seq<string>)
    ensures LineLen(y) == LineLen([]) + Weight(y)
  {
    if y != [] { LineLenIs(y[1..]); }
  }

  lemma NamesLineLen(p: Peer, mode: char, chan: string, cur: seq<string>)
    requires cur != []
    ensures LineLen(NamesLine(p, mode, chan, cur).args) == LineLen(Header(p, mode, chan)) + 1 + Weight(cur)
  {
    var h, names := Header(p, mode, chan), [":" + cur[0]] + cur[1..];
    assert h + [":" + cur[0]] + cur[1..] == h + names;
    LineLenOf(h, names);
    assert names[1..] == cur[1..];
  }

  /** Every line fits, and none but the last could take the next name too. */
  predicate Tight(p: Peer, mode: char, chan: string, chunks: seq<seq<string>>)
    requires Chunked(chunks)
  {
    && (forall k :: 0 <= k < |chunks| ==> Fits(p, mode, chan, chunks[k]))
    && (forall k :: 0 <= k < |chunks| - 1 ==> !Fits(p, mode, chan, chunks[k] + [chunks[k + 1][0]]))
  }

  lemma TightGrows(p: Peer, mode: char, chan: string, chunks: seq<seq<string>>, cur: seq<string>, name: string)
    requires Chunked(chunks) && cur != [] && Tight(p, mode, chan, chunks + [cur])
    ensures Chunked(chunks + [cur])
    ensures Fits(p, mode, chan, cur + [name]) ==> Tight(p, mode, chan, chunks + [cur + [name]])
    ensures !Fits(p, mode, chan, cur + [name]) && Fits(p, mode, chan, [name]) ==>
              Tight(p, mode, chan, chunks + [cur] + [[name]])
  {
    hide Fits;
    var a, b, c := chunks + [cur], chunks + [cur + [name]], chunks + [cur] + [[name]];
    assert forall k :: 0 <= k < |chunks| ==> b[k] == a[k] && b[k][0] == a[k][0];
    assert b[|chunks|][0] == a[|chunks|][0];
    assert forall k :: 0 <= k <= |chunks| ==> c[k] == a[k];
  }

  /** Lines that are filled as far as they go are as few as can be: any other cut of the same names into
      lines that fit has at least as many. Here `other` may even have names before them. */
  lemma {:induction false} TightIsFewest(p: Peer, mode: char, chan: string, chunks: seq<seq<string>>,
                                         other: seq<seq<string>>, before: seq<string>)
    requires Chunked(chunks) && Tight(p, mode, chan, chunks) && Flattened(other) == before + Flattened(chunks)
    requires forall k :: 0 <= k < |other| ==> Fits(p, mode, chan, other[k])
    ensures |chunks| <= |other|
    decreases |chunks|
  {
    if chunks != [] {
      hide Fits;
      var a, rest, names := chunks[0], chunks[1..], before + Flattened(chunks);
      assert other != [];
      var b, others := other[0], other[1..];
      assert names == before + a + Flattened(rest) && names == b + Flattened(others);
      if |b| > |before| + |a| {
        var next := rest[0][0];
        assert names[|before| + |a|] == Flattened(rest)[0] == next;
        assert b == before + (a + [next]) + b[|before| + |a| + 1..] by {
          PrefixOfBoth(names, before, a, Flattened(rest), b);
        }
        TooWide(p, mode, chan, before, a + [next], b[|before| + |a| + 1..]);
        assert false;
      } else {
        var skipped := (before + a)[|b|..];
        assert Flattened(others) == names[|b|..] == skipped + Flattened(rest);
        assert forall k :: 0 <= k < |rest| ==> rest[k] == chunks[k + 1];
        assert forall k :: 0 <= k < |others| ==> others[k] == other[k + 1];
        TightIsFewest(p, mode, chan, rest, others, skipped);
      }
    }
  }

  lemma PrefixOfBoth(names: seq<string>, before: seq<string>, a: seq<string>, rest: seq<string>, b: seq<string>)
    requires names == before + a + rest && b <= names && |b| > |before| + |a|
    ensures rest != [] && b == before + (a + [rest[0]]) + b[|before| + |a| + 1..]
  {
    var n := |before| + |a|;
    assert b == b[..n + 1] + b[n + 1..];
    assert b[..n + 1] == names[..n + 1] == before + (a + [rest[0]]);
  }

  lemma TooWide(p: Peer, mode: char, chan: string, x: seq<string>, y: seq<string>, z: seq<string>)
    requires Fits(p, mode, chan, x + y + z)
    ensures Fits(p, mode, chan, y)
  {
    WeightOf(x + y, z);
    WeightOf(x, y);
  }

  /** client_send_nameslist, up to the socket: the names in order, none lost, none repeated, cut
      into lines that keep to the limit, each filled as far as it goes, and the end of the list. */
  method NamesList(p: Peer, info: Info, mode: char, chan: string, ss: seq<Seat>)
    returns (lines: seq<Line>, ghost chunks: seq<seq<string>>)
    requires EachFits(p, mode, chan, AllShown(info, ss))
    ensures Chunked(chunks) && Flattened(chunks) == AllShown(info, ss)
    ensures lines == Lines(p, mode, chan, chunks) + [EndLine(p, chan)]
    ensures forall k :: 0 <= k < |chunks| ==> |PrintNl(lines[k])| <= Room(p)
    ensures Tight(p, mode, chan, chunks)
  {
    hide PrintNl, NamesLine, Packed, Header, Shown, Flattened, LineLen, Tight, Weight, Chunked;
    ghost var names := AllShown(info, ss);
    var l: Builder? := null;
    ghost var cur: seq<string> := [];
    lines, chunks := [], [];
    NothingPacked(p, mode, chan);
    var j := 0;
    while j < |ss|
      invariant j <= |ss| && Packed(p, mode, chan, lines, chunks)
      invariant l == null <==> cur == []
      invariant l != null ==> fresh(l) && l.origin == p.origin && l.Value() == NamesLine(p, mode, chan, cur)
      invariant l != null ==> |PrintNl(l.Value())| <= Room(p)
      invariant Flattened(chunks) + cur == names[..j]
      invariant Chunked(chunks) && (cur == [] ==> chunks == []) && Filled(p, mode, chan, chunks, cur)
    {
      var arg := Shown(info, ss[j]);
      assert names[..j + 1] == names[..j] + [arg];
      NamesLineGrows(p, mode, chan, cur, arg);
      var added := false;
      if l != null {
        NamesLineLen(p, mode, chan, cur);
        WeightSnoc(cur, arg);
        added := l.AddArg(arg);
      }
      assert names[j] == arg;
      FilledFurther(p, mode, chan, chunks, cur, arg);
      if added {
        cur := cur + [arg];
      } else {
        if l != null {
          PackedSnoc(p, mode, chan, lines, chunks, cur);
          lines, chunks := lines + [l.Value()], chunks + [cur];
        }
        l := new Builder(p.origin, Header(p, mode, chan), WithoutColon);
        var fits := l.AddArg(":" + arg);
        assert fits;
        cur := [arg];
      }
      j := j + 1;
    }
    if l != null {
      PackedSnoc(p, mode, chan, lines, chunks, cur);
      lines, chunks := lines + [l.Value()], chunks + [cur];
    }
    assert names[..j] == names;
    assert Chunked(chunks) && lines == Lines(p, mode, chan, chunks) &&
        (forall k :: 0 <= k < |chunks| ==> |PrintNl(lines[k])| <= Room(p)) by {
      PackedMeans(p, mode, chan, lines, chunks);
    }
    lines := lines + [EndLine(p, chan)];
  }

  lemma NothingPacked(p: Peer, mode: char, chan: string)
    ensures Packed(p, mode, chan, [], []) && Flattened([]) == [] && Chunked([]) && Tight(p, mode, chan, [])
  {}

  /** The line being filled counts as the last. */
  predicate Filled(p: Peer, mode: char, chan: string, chunks: seq<seq<string>>, cur: seq<string>)
    requires Chunked(chunks)
  {
    cur != [] ==> Chunked(chunks + [cur]) && Tight(p, mode, chan, chunks + [cur])
  }

  lemma WeightSnoc(cur: seq<string>, arg: string)
    ensures Weight(cur + [arg]) == Weight(cur) + |arg| + 1
  {
    WeightOf(cur, [arg]);
    assert [arg][1..] == [];
  }

  lemma FilledFurther(p: Peer, mode: char, chan: string, chunks: seq<seq<string>>, cur: seq<string>, arg: string)
    requires Chunked(chunks) && (cur == [] ==> chunks == []) && Filled(p, mode, chan, chunks, cur)
    requires EachFits(p, mode, chan, [arg])
    ensures Fits(p, mode, chan, cur + [arg]) ==> Filled(p, mode, chan, chunks, cur + [arg])
    ensures cur != [] && !Fits(p, mode, chan, cur + [arg]) ==>
              Chunked(chunks + [cur]) && Filled(p, mode, chan, chunks + [cur], [arg])
    ensures cur == [] ==> Filled(p, mode, chan, chunks, [arg])
  {
    assert Fits(p, mode, chan, [arg]) by { WeightSnoc([], arg); assert [] + [arg] == [arg] && [arg][0] == arg; }
    if cur != [] {
      TightGrows(p, mode, chan, chunks, cur, arg);
    } else {
      assert chunks + [[arg]] == [[arg]] && [] + [arg] == [arg];
    }
  }

  lemma PackedMeans(p: Peer, mode: char, chan: string, lines: seq<Line>, chunks: seq<seq<string>>)
    requires Packed(p, mode, chan, lines, chunks)
    ensures Chunked(chunks) && lines == Lines(p, mode, chan, chunks)
    ensures forall k :: 0 <= k < |chunks| ==> |PrintNl(lines[k])| <= Room(p)
  {}

  // ------------------------------------------------------------------------- receiver

  lemma {:induction false} PrintOfNames(head: seq<string>, names: seq<string>)
    requires names != []
    ensures PrintArgs(head + [":" + names[0]] + names[1..], false) == PrintArgs(head + [JoinWith(names, ' ')], true)
    decreases |head|
  {
    if head == [] {
      assert head + [":" + names[0]] + names[1..] == [":" + names[0]] + names[1..];
      assert head + [JoinWith(names, ' ')] == [JoinWith(names, ' ')];
      PrintOfFirst(names);
    } else {
      var a, b := head + [":" + names[0]] + names[1..], head + [JoinWith(names, ' ')];
      assert a[1..] == head[1..] + [":" + names[0]] + names[1..] && b[1..] == head[1..] + [JoinWith(names, ' ')];
      PrintOfNames(head[1..], names);
    }
  }

  lemma PrintOfFirst(names: seq<string>)
    requires names != []
    ensures PrintArgs([":" + names[0]] + names[1..], false) == ":" + JoinWith(names, ' ')
  {
    var a := [":" + names[0]] + names[1..];
    if |names| == 1 {
      assert PrintArgs(a, false) == ":" + names[0];
    } else {
      var rest := names[1..];
      assert a[1..] == rest;
      assert PrintArgs(a, false) == ":" + names[0] + " " + PrintArgs(rest, false);
      assert JoinWith(names, ' ') == names[0] + " " + JoinWith(rest, ' ');
      PrintIsJoin(rest);
      hide PrintArgs, JoinWith;
      Associated(":", names[0], " ", JoinWith(rest, ' '));
    }
  }

  lemma Associated(a: string, b: string, c: string, d: string)
    ensures a + b + c + d == a + (b + c + d)
  {}

  lemma {:induction false} PrintIsJoin(names: seq<string>)
    requires names != []
    ensures PrintArgs(names, false) == JoinWith(names, ' ')
  {
    if |names| > 1 { PrintIsJoin(names[1..]); }
  }

  /** A name that survives between spaces. */
  predicate NameOk(n: string) { n != "" && ' ' !in n && NoBreak(n) }

  predicate PlainNames(names: seq<string>) { names != [] && forall j :: 0 <= j < |names| ==> NameOk(names[j]) }

  predicate PeerOk(p: Peer) { MiddleArg(p.target) && (p.origin.Some? ==> ' ' !in p.origin.value) }

  predicate ChannelOk(mode: char, chan: string) { MiddleArg(ModeText(mode)) && MiddleArg(chan) }

  lemma {:induction false} JoinOk(names: seq<string>)
    requires PlainNames(names)
    ensures NoBreak(JoinWith(names, ' ')) && JoinWith(names, ' ') != ""
    ensures StrSplit(JoinWith(names, ' '), ' ') == names
  {
    if |names| > 1 {
      assert forall j :: 0 <= j < |names| - 1 ==> names[1..][j] == names[j + 1];
      JoinOk(names[1..]);
    }
    assert NameOk(names[0]);
    PiecesOfJoin(names, ' ');
  }

  /** The line a receiver parses out of the text of a 353 line: the names are one argument. */
  function Received(p: Peer, mode: char, chan: string, names: seq<string>): (l: Line) {
    Line(p.origin, Header(p, mode, chan) + [JoinWith(names, ' ')], WithColon)
  }

  lemma ReceivedIsParsed(p: Peer, mode: char, chan: string, names: seq<string>)
    requires PeerOk(p) && ChannelOk(mode, chan) && PlainNames(names)
    ensures Parse(PrintNl(NamesLine(p, mode, chan, names))) == Some(Received(p, mode, chan, names))
  {
    var h, l, r := Header(p, mode, chan), NamesLine(p, mode, chan, names), Received(p, mode, chan, names);
    PrintOfNames(h, names);
    JoinOk(names);
    hide JoinWith, PrintArgs;
    assert PrintNl(l) == PrintNl(r);
    assert r.args[1..] == [p.target, ModeText(mode), chan, JoinWith(names, ' ')];
    assert WellFormed(r);
    ParseOfPrint(r);
  }

  lemma EndIsParsed(p: Peer, chan: string)
    requires PeerOk(p) && MiddleArg(chan)
    ensures Parse(PrintNl(EndLine(p, chan))) == Some(EndLine(p, chan).(colon := WithColon))
  {
    var l := EndLine(p, chan);
    EndNeedsColon(l);
    assert l.args[1..] == [p.target, chan, "End of /NAMES list"];
    ParseOfPrint(l);
  }

  lemma EndNeedsColon(l: Line)
    requires |l.args| > 1 && l.args[0] == "366" && l.colon == ColonUnknown
    ensures PrintsColon(l)
  {
    assert Atoi("366") == 366 by {
      assert Digits("366", 0) == Digits("66", 3) == Digits("6", 36) == Digits("", 366);
    }
    AsciiNe("366", "MODE");
    AsciiNe("366", "NICK");
    AsciiNe("366", "JOIN");
    AsciiNe("366", "PART");
    AsciiNe("366", "TOPIC");
  }

  // -------------------------------------------------------------- what the receiver does

  /** The two lines as the state machine takes them. */
  lemma NamesStep(s: Net, p: Peer, mode: char, chan: string, names: seq<string>, i: nat, now: int)
    requires Sound(s) && i == FindChan(s, chan) < |s.channels| && PlainNames(names) && AllOnePrefix(s.info, names)
    ensures Accepts(s, Received(p, mode, chan, names))
    ensures Step(s, Received(p, mode, chan, names), now) == NamReply(s, i, ModeText(mode), names)
  {
    hide NamReply, JoinWith, Sound, OnePrefix, FindChan;
    JoinOk(names);
    var l := Received(p, mode, chan, names);
    NumericNames();
    assert l.args[0] == "353" && l.args[2] == ModeText(mode) && l.args[3] == chan && l.args[4] == JoinWith(names, ' ');
  }

  lemma NumericNames()
    ensures CommandNamed("353") == N353 && CommandNamed("366") == N366
  {
    NotAWord("353");
    NotAWord("366");
  }

  lemma NotAWord(c: string)
    requires c != "" && IsDigit(c[0])
    ensures !AsciiEq("JOIN", c) && !AsciiEq("PART", c) && !AsciiEq("KICK", c) && !AsciiEq("QUIT", c)
    ensures !AsciiEq("TOPIC", c) && !AsciiEq("NICK", c) && !AsciiEq("PRIVMSG", c) && !AsciiEq("MODE", c)
  {}

  lemma EndStep(s: Net, p: Peer, chan: string, i: nat, now: int)
    requires Sound(s) && i == FindChan(s, chan) < |s.channels|
    ensures var l := EndLine(p, chan).(colon := WithColon);
            Accepts(s, l) && Step(s, l, now) == WithChan(s, i, s.channels[i].data.(namreplyStarted := false))
  {
    hide Sound, FindChan;
    NumericNames();
  }

  lemma {:induction false} AddNamesSplit(s: Net, i: nat, a: seq<string>, b: seq<string>)
    requires Sound(s) && i < |s.channels| && AllOnePrefix(s.info, a) && AllOnePrefix(s.info, b)
    ensures AddNames(s, i, a + b) == AddNames(AddNames(s, i, a), i, b)
    decreases |a|
  {
    hide Sound, OnePrefix, AddMember;
    if a == [] {
      assert a + b == b;
    } else {
      assert (a + b)[1..] == a[1..] + b;
      AddNamesSplit(if a[0] == "" then s else AddMember(s, i, a[0]), i, a[1..], b);
    }
  }

  lemma AddMemberData(s: Net, i: nat, name: string)
    requires Sound(s) && i < |s.channels| && OnePrefix(s.info, name)
    ensures var r := AddMember(s, i, name);
            ChanNames(r.channels) == ChanNames(s.channels) && r.channels[i].data == s.channels[i].data
  {
    var r := AddMember(s, i, name);
    assert forall x :: 0 <= x < |s.channels| ==> r.channels[x].data == s.channels[x].data;
  }

  lemma {:induction false} AddNamesData(s: Net, i: nat, names: seq<string>)
    requires Sound(s) && i < |s.channels| && AllOnePrefix(s.info, names)
    ensures var r := AddNames(s, i, names);
            ChanNames(r.channels) == ChanNames(s.channels) && r.channels[i].data == s.channels[i].data
    decreases |names|
  {
    hide Sound, OnePrefix, AddMember, ChanNames;
    if names != [] {
      AddMemberData(s, i, names[0]);
      AddNamesData(if names[0] == "" then s else AddMember(s, i, names[0]), i, names[1..]);
    }
  }

  /** The replies, handled one after the other. */
  ghost function Told(s: Net, i: nat, mode: char, chunks: seq<seq<string>>): (r: Net)
    requires Sound(s) && i < |s.channels| && (forall k :: 0 <= k < |chunks| ==> AllOnePrefix(s.info, chunks[k]))
    ensures Sound(r) && |r.channels| == |s.channels| && r.info == s.info
    decreases |chunks|
  {
    if chunks == [] then s else Told(NamReply(s, i, ModeText(mode), chunks[0]), i, mode, chunks[1..])
  }

  /** Once a series has started, every reply only adds. */
  lemma StartedOnlyAdds(s: Net, i: nat, mode: char)
    requires Sound(s) && i < |s.channels| && s.channels[i].data.namreplyStarted && s.channels[i].data.mode == mode
    ensures OpenNames(s, i, ModeText(mode)) == s
  {
    assert s.channels[i := s.channels[i]] == s.channels;
  }

  lemma {:induction false} ConcatOnePrefix(info: Info, chunks: seq<seq<string>>)
    requires forall k :: 0 <= k < |chunks| ==> AllOnePrefix(info, chunks[k])
    ensures AllOnePrefix(info, Flattened(chunks))
  {
    hide OnePrefix;
    if chunks != [] { ConcatOnePrefix(info, chunks[1..]); }
  }

  lemma {:induction false} ToldMore(s: Net, i: nat, mode: char, chunks: seq<seq<string>>)
    requires Sound(s) && i < |s.channels| && (forall k :: 0 <= k < |chunks| ==> AllOnePrefix(s.info, chunks[k]))
    requires s.channels[i].data.namreplyStarted && s.channels[i].data.mode == mode
    ensures AllOnePrefix(s.info, Flattened(chunks)) && Told(s, i, mode, chunks) == AddNames(s, i, Flattened(chunks))
    decreases |chunks|
  {
    hide Sound, AllOnePrefix, AddNames;
    ConcatOnePrefix(s.info, chunks);
    if chunks != [] {
      StartedOnlyAdds(s, i, mode);
      AddNamesData(s, i, chunks[0]);
      ToldMore(AddNames(s, i, chunks[0]), i, mode, chunks[1..]);
      AddNamesSplit(s, i, chunks[0], Flattened(chunks[1..]));
    } else {
      assert AddNames(s, i, []) == s by { AddNothing(s, i); }
    }
  }

  lemma AddNothing(s: Net, i: nat)
    requires Sound(s) && i < |s.channels|
    ensures AddNames(s, i, []) == s
  {}

  /** However the names are cut up, the receiver empties the channel and adds them all. */
  lemma ToldAll(s: Net, i: nat, mode: char, chunks: seq<seq<string>>)
    requires Sound(s) && i < |s.channels| && chunks != []
    requires (forall k :: 0 <= k < |chunks| ==> AllOnePrefix(s.info, chunks[k]))
    ensures AllOnePrefix(s.info, Flattened(chunks))
    ensures Told(s, i, mode, chunks) == AddNames(OpenNames(s, i, ModeText(mode)), i, Flattened(chunks))
  {
    hide Sound, AllOnePrefix, AddNames, OpenNames;
    var o := OpenNames(s, i, ModeText(mode));
    OpenNamesData(s, i, mode);
    AddNamesData(o, i, chunks[0]);
    ToldMore(AddNames(o, i, chunks[0]), i, mode, chunks[1..]);
    ConcatOnePrefix(s.info, chunks);
    AddNamesSplit(o, i, chunks[0], Flattened(chunks[1..]));
  }

  lemma OpenNamesData(s: Net, i: nat, mode: char)
    requires Sound(s) && i < |s.channels|
    ensures var o := OpenNames(s, i, ModeText(mode));
            && o.channels[i].data.namreplyStarted && o.channels[i].data.mode == mode
            && (!s.channels[i].data.namreplyStarted ==> o.channels[i].members == [])
  {
    hide ClearMembers;
    var s1 := WithChan(s, i, s.channels[i].data.(mode := mode));
    ClearMembersData(s1, i);
  }

  lemma {:induction false} ClearMembersData(s: Net, i: nat)
    requires Sound(s) && i < |s.channels|
    ensures ClearMembers(s, i).channels[i].data == s.channels[i].data
    ensures ChanNames(ClearMembers(s, i).channels) == ChanNames(s.channels)
    decreases |s.channels[i].members|
  {
    if s.channels[i].members != [] {
      DropMemberData(s, i, 0);
      hide DropMember;
      ClearMembersData(DropMember(s, i, 0), i);
    }
  }

  lemma DropMemberData(s: Net, i: nat, j: nat)
    requires Sound(s) && i < |s.channels| && j < |s.channels[i].members|
    ensures DropMember(s, i, j).channels[i].data == s.channels[i].data
    ensures ChanNames(DropMember(s, i, j).channels) == ChanNames(s.channels)
  {
    var r := DropMember(s, i, j);
    assert forall x :: 0 <= x < |s.channels| ==> r.channels[x].data == s.channels[x].data;
  }

  // ------------------------------------------------------------------------- the meaning

  /** The `j`-th member is the one named, with the mode its prefix stands for. */
  predicate Seated(s: Net, i: nat, j: nat, name: string)
    requires Sound(s) && i < |s.channels| && j < |s.channels[i].members|
  {
    var m := s.channels[i].members[j];
    Eq(s.info, s.people[m.who].nick, StripPrefix(s.info, name)) && m.modes == PrefixMode(s.info, name)
  }

  predicate AllSeated(s: Net, i: nat, names: seq<string>)
    requires Sound(s) && i < |s.channels|
  {
    |s.channels[i].members| == |names| && forall j :: 0 <= j < |names| ==> Seated(s, i, j, names[j])
  }

  /** No two names are the same nick. */
  predicate NicksDiffer(info: Info, names: seq<string>) {
    forall j, k :: 0 <= j < k < |names| ==> !Eq(info, StripPrefix(info, names[j]), StripPrefix(info, names[k]))
  }

  lemma SeatOneMore(s: Net, i: nat, names: seq<string>, name: string)
    requires Sound(s) && i < |s.channels| && AllSeated(s, i, names) && OnePrefix(s.info, name)
    requires NicksDiffer(s.info, names + [name])
    ensures AllSeated(AddMember(s, i, name), i, names + [name])
  {
    var all, ms, realname := names + [name], s.channels[i].members, StripPrefix(s.info, name);
    forall j | 0 <= j < |ms|
      ensures !Same(s.info.casemapping, MemberNames(s.people, ms)[j], realname)
    {
      assert Seated(s, i, j, names[j]);
      assert !Eq(s.info, StripPrefix(s.info, all[j]), StripPrefix(s.info, all[|names|]));
    }
    assert FindMember(s, i, realname) == |ms|;
    AddPersonKeeps(s, realname);
    var r := AddMember(s, i, name);
    forall j | 0 <= j < |all|
      ensures Seated(r, i, j, all[j])
    {
      assert j < |names| ==> Seated(s, i, j, names[j]);
    }
  }

  lemma {:induction false} AddNamesSeats(s: Net, i: nat, done: seq<string>, names: seq<string>)
    requires Sound(s) && i < |s.channels| && AllSeated(s, i, done) && AllOnePrefix(s.info, names)
    requires (forall j :: 0 <= j < |names| ==> names[j] != "") && NicksDiffer(s.info, done + names)
    ensures AllSeated(AddNames(s, i, names), i, done + names)
    decreases |names|
  {
    hide Sound, OnePrefix, AddMember, AllSeated;
    if names == [] {
      assert done + names == done;
    } else {
      var now := done + [names[0]];
      assert done + names == now + names[1..];
      assert NicksDiffer(s.info, now) by { assert forall j :: 0 <= j < |now| ==> now[j] == (done + names)[j]; }
      SeatOneMore(s, i, done, names[0]);
      AddNamesSeats(AddMember(s, i, names[0]), i, now, names[1..]);
    }
  }

  /** The leftmost of the prefix modes that somebody has. */
  function TopMode(letters: string, has: set<char>): (r: set<char>) {
    if letters == "" then {} else if letters[0] in has then {letters[0]} else TopMode(letters[1..], has)
  }

  lemma {:induction false} TopModeIs(letters: string, has: set<char>, k: nat)
    requires k <= |letters| && (forall j :: 0 <= j < k ==> letters[j] !in has) && (k < |letters| ==> letters[k] in has)
    ensures TopMode(letters, has) == if k < |letters| then {letters[k]} else {}
  {
    if k > 0 { TopModeIs(letters[1..], has, k - 1); }
  }

  /** A shown name says who it is and, for a prefix list that matches up, the leftmost mode. */
  lemma ShownMeans(info: Info, letters: string, symbols: string, s: Seat)
    requires MatchedPrefix(info, letters, symbols) && !HasPrefix(info, s.nick)
    ensures var n := Shown(info, s);
            StripPrefix(info, n) == s.nick && OnePrefix(info, n) && PrefixMode(info, n) == TopMode(letters, s.modes)
  {
    MatchedPrefixParts(info, letters, symbols);
    var k := LeftmostPrefix(info, letters, symbols, s.modes);
    TopModeIs(letters, s.modes, k);
    if k < |letters| {
      PrefixLookupsInvert(info, letters, symbols, k);
      var n := Shown(info, s);
      assert n[0] == symbols[k] && n[1..] == s.nick;
    }
  }

  /** A member list that can be sent: plain nicks, no two the same. */
  predicate Sendable(info: Info, ss: seq<Seat>) {
    && (forall j :: 0 <= j < |ss| ==> NameOk(ss[j].nick) && !HasPrefix(info, ss[j].nick))
    && (forall j, k :: 0 <= j < k < |ss| ==> !Eq(info, ss[j].nick, ss[k].nick))
  }

  predicate PlainSymbols(symbols: string) { ' ' !in symbols && NoBreak(symbols) }

  lemma ShownOk(info: Info, letters: string, symbols: string, ss: seq<Seat>)
    requires MatchedPrefix(info, letters, symbols) && PlainSymbols(symbols) && Sendable(info, ss)
    ensures AllOnePrefix(info, AllShown(info, ss)) && NicksDiffer(info, AllShown(info, ss))
    ensures forall j :: 0 <= j < |ss| ==> NameOk(AllShown(info, ss)[j])
  {
    hide OnePrefix, Shown, HasPrefix, StripPrefix, MatchedPrefix;
    forall j | 0 <= j < |ss|
      ensures OnePrefix(info, Shown(info, ss[j])) && StripPrefix(info, Shown(info, ss[j])) == ss[j].nick
      ensures NameOk(Shown(info, ss[j]))
    {
      ShownMeans(info, letters, symbols, ss[j]);
      ShownIsName(info, letters, symbols, ss[j]);
    }
  }

  lemma ShownIsName(info: Info, letters: string, symbols: string, s: Seat)
    requires MatchedPrefix(info, letters, symbols) && PlainSymbols(symbols) && NameOk(s.nick)
    ensures NameOk(Shown(info, s))
  {
    MatchedPrefixParts(info, letters, symbols);
    var k := LeftmostPrefix(info, letters, symbols, s.modes);
    if k < |letters| {
      assert symbols[k] in symbols;
    }
  }

  /** What the receiver has after the whole list: the same nicks in the same order, each with its
      leftmost prefix mode. */
  predicate SameMembers(s: Net, i: nat, letters: string, ss: seq<Seat>)
    requires Sound(s) && i < |s.channels|
  {
    && |s.channels[i].members| == |ss|
    && forall j :: 0 <= j < |ss| ==>
         var m := s.channels[i].members[j];
         Eq(s.info, s.people[m.who].nick, ss[j].nick) && m.modes == TopMode(letters, ss[j].modes)
  }

  /** NAMES packing preserves meaning, for any way of cutting the names into lines. */
  lemma NamesPreserveMeaning(s: Net, i: nat, mode: char, letters: string, symbols: string, ss: seq<Seat>,
                             chunks: seq<seq<string>>)
    requires Sound(s) && i < |s.channels| && !s.channels[i].data.namreplyStarted
    requires MatchedPrefix(s.info, letters, symbols) && PlainSymbols(symbols) && Sendable(s.info, ss)
    requires Chunked(chunks) && Flattened(chunks) == AllShown(s.info, ss) && (ss == [] ==> s.channels[i].members == [])
    ensures forall k :: 0 <= k < |chunks| ==> AllOnePrefix(s.info, chunks[k])
    ensures SameMembers(Told(s, i, mode, chunks), i, letters, ss)
  {
    hide Sound, OnePrefix, AllSeated, MatchedPrefix, Sendable, SameMembers;
    var names := AllShown(s.info, ss);
    ShownOk(s.info, letters, symbols, ss);
    ChunksOnePrefix(s.info, chunks);
    if chunks == [] {
      NobodySeated(s, i, letters, symbols, ss);
    } else {
      ToldAll(s, i, mode, chunks);
      OpenNamesData(s, i, mode);
      var o := OpenNames(s, i, ModeText(mode));
      assert AllSeated(o, i, []) by { EmptySeated(o, i); }
      assert [] + names == names;
      AddNamesSeats(o, i, [], names);
      SeatedMeans(AddNames(o, i, names), i, letters, symbols, ss);
    }
  }

  lemma EmptySeated(s: Net, i: nat)
    requires Sound(s) && i < |s.channels| && s.channels[i].members == []
    ensures AllSeated(s, i, [])
  {}

  lemma NobodySeated(s: Net, i: nat, letters: string, symbols: string, ss: seq<Seat>)
    requires Sound(s) && i < |s.channels| && |AllShown(s.info, ss)| == 0 && (ss == [] ==> s.channels[i].members == [])
    ensures SameMembers(s, i, letters, ss)
  {
    assert ss == [];
  }

  lemma {:induction false} ChunksOnePrefix(info: Info, chunks: seq<seq<string>>)
    requires AllOnePrefix(info, Flattened(chunks))
    ensures forall k :: 0 <= k < |chunks| ==> AllOnePrefix(info, chunks[k])
  {
    hide OnePrefix;
    if chunks != [] {
      var all, rest := Flattened(chunks), Flattened(chunks[1..]);
      assert forall j :: 0 <= j < |chunks[0]| ==> chunks[0][j] == all[j];
      assert forall j :: 0 <= j < |rest| ==> rest[j] == all[|chunks[0]| + j];
      ChunksOnePrefix(info, chunks[1..]);
      assert forall k :: 0 < k < |chunks| ==> chunks[k] == chunks[1..][k - 1];
    }
  }

  lemma SeatedMeans(s: Net, i: nat, letters: string, symbols: string, ss: seq<Seat>)
    requires Sound(s) && i < |s.channels| && MatchedPrefix(s.info, letters, symbols) && Sendable(s.info, ss)
    requires AllSeated(s, i, AllShown(s.info, ss))
    ensures SameMembers(s, i, letters, ss)
  {
    hide MatchedPrefix, Shown, StripPrefix, PrefixMode;
    forall j | 0 <= j < |ss|
      ensures var m := s.channels[i].members[j];
              Eq(s.info, s.people[m.who].nick, ss[j].nick) && m.modes == TopMode(letters, ss[j].modes)
    {
      ShownMeans(s.info, letters, symbols, ss[j]);
      assert Seated(s, i, j, AllShown(s.info, ss)[j]);
    }
  }

  // ------------------------------------------------------------------ through the wire

  predicate Legible(lines: seq<Line>) { forall k :: 0 <= k < |lines| ==> Parse(PrintNl(lines[k])).Some? }

  /** The lines as a receiver parses them from their text. */
  function Heard(lines: seq<Line>, now: int): (r: seq<Event>)
    requires Legible(lines)
    ensures |r| == |lines| && forall k :: 0 <= k < |r| ==> r[k] == Event(Parse(PrintNl(lines[k])).value, now)
  {
    seq(|lines|, k requires 0 <= k < |lines| => Event(Parse(PrintNl(lines[k])).value, now))
  }

  lemma NamReplyKeepsChannels(s: Net, i: nat, mode: char, names: seq<string>)
    requires Sound(s) && i < |s.channels| && AllOnePrefix(s.info, names)
    ensures ChanNames(NamReply(s, i, ModeText(mode), names).channels) == ChanNames(s.channels)
  {
    hide Sound, AllOnePrefix, AddNames, ClearMembers;
    var s1 := WithChan(s, i, s.channels[i].data.(mode := mode));
    assert ChanNames(s1.channels) == ChanNames(s.channels);
    ClearMembersData(s1, i);
    var o := OpenNames(s, i, ModeText(mode));
    assert ChanNames(o.channels) == ChanNames(s.channels);
    AddNamesData(o, i, names);
  }

  /** What is sent can be read, and reading it is handling the replies and closing the list. */
  lemma {:induction false} HeardIsTold(s: Net, p: Peer, mode: char, chan: string, chunks: seq<seq<string>>, i: nat,
                                       now: int)
    requires Sound(s) && i == FindChan(s, chan) < |s.channels| && PeerOk(p) && ChannelOk(mode, chan)
    requires Chunked(chunks)
    requires (forall k :: 0 <= k < |chunks| ==> PlainNames(chunks[k]) && AllOnePrefix(s.info, chunks[k]))
    ensures var lines, t := Lines(p, mode, chan, chunks) + [EndLine(p, chan)], Told(s, i, mode, chunks);
            && Legible(lines) && Accepted(s, Heard(lines, now))
            && Run(s, Heard(lines, now)) == WithChan(t, i, t.channels[i].data.(namreplyStarted := false))
    decreases |chunks|
  {
    hide Sound, AllOnePrefix, PlainNames, Parse, PrintNl, Accepts, Step, NamReply, NamesLine, EndLine, Received;
    hide WithChan;
    var lines := Lines(p, mode, chan, chunks) + [EndLine(p, chan)];
    if chunks == [] {
      EndIsParsed(p, chan);
      EndStep(s, p, chan, i, now);
      assert lines == [EndLine(p, chan)];
      assert Heard(lines, now)[1..] == [];
    } else {
      var rest := Lines(p, mode, chan, chunks[1..]) + [EndLine(p, chan)];
      ReceivedIsParsed(p, mode, chan, chunks[0]);
      NamesStep(s, p, mode, chan, chunks[0], i, now);
      var s1 := NamReply(s, i, ModeText(mode), chunks[0]);
      NamReplyKeepsChannels(s, i, mode, chunks[0]);
      HeardIsTold(s1, p, mode, chan, chunks[1..], i, now);
      assert lines[1..] == rest && lines[0] == NamesLine(p, mode, chan, chunks[0]);
      assert forall k :: 0 < k < |lines| ==> lines[k] == rest[k - 1];
      assert Legible(lines);
      assert Heard(lines, now)[1..] == Heard(rest, now);
    }
  }

  lemma {:induction false} ChunksPlain(chunks: seq<seq<string>>)
    requires Chunked(chunks) && forall j :: 0 <= j < |Flattened(chunks)| ==> NameOk(Flattened(chunks)[j])
    ensures forall k :: 0 <= k < |chunks| ==> PlainNames(chunks[k])
  {
    hide NameOk;
    if chunks != [] {
      var all, rest := Flattened(chunks), Flattened(chunks[1..]);
      assert forall j :: 0 <= j < |chunks[0]| ==> chunks[0][j] == all[j];
      assert forall j :: 0 <= j < |rest| ==> rest[j] == all[|chunks[0]| + j];
      ChunksPlain(chunks[1..]);
      assert forall k :: 0 < k < |chunks| ==> chunks[k] == chunks[1..][k - 1];
    }
  }

  /** client_send_nameslist, heard by a receiver that parses the printed lines: the channel has
      the same nicks in the same order, each with its leftmost prefix mode. */
  lemma NamesAreHeard(s: Net, p: Peer, mode: char, chan: string, letters: string, symbols: string, ss: seq<Seat>,
                      chunks: seq<seq<string>>, i: nat, now: int)
    requires Sound(s) && i == FindChan(s, chan) < |s.channels| && !s.channels[i].data.namreplyStarted
    requires PeerOk(p) && ChannelOk(mode, chan)
    requires MatchedPrefix(s.info, letters, symbols) && PlainSymbols(symbols) && Sendable(s.info, ss)
    requires Chunked(chunks) && Flattened(chunks) == AllShown(s.info, ss) && (ss == [] ==> s.channels[i].members == [])
    ensures var lines := Lines(p, mode, chan, chunks) + [EndLine(p, chan)];
            && Legible(lines) && Accepted(s, Heard(lines, now))
            && |Run(s, Heard(lines, now)).channels| == |s.channels| &&
               SameMembers(Run(s, Heard(lines, now)), i, letters, ss)
  {
    hide Sound, MatchedPrefix, PlainSymbols, Sendable, SameMembers, PlainNames, AllOnePrefix, NameOk, FindChan;
    hide Accepted, Run, Told;
    NamesPreserveMeaning(s, i, mode, letters, symbols, ss, chunks);
    ShownOk(s.info, letters, symbols, ss);
    ChunksPlain(chunks);
    HeardIsTold(s, p, mode, chan, chunks, i, now);
    var t := Told(s, i, mode, chunks);
    ClosingKeepsMembers(t, i, letters, ss);
  }

  lemma ClosingKeepsMembers(t: Net, i: nat, letters: string, ss: seq<Seat>)
    requires Sound(t) && i < |t.channels| && SameMembers(t, i, letters, ss)
    ensures SameMembers(WithChan(t, i, t.channels[i].data.(namreplyStarted := false)), i, letters, ss)
  {}
}
