/** What each line does to the network state: the handlers of libirc/state.c as functions
    on the state as a value, and state_handle_data over them. */
module Handlers {
  import opened Base
  import opened Casemap
  import opened Info
  import opened Isupport
  import opened Line
  import opened State

  // ------------------------------------------------------------ nick records

  /** line_get_nick on an origin. */
  function NickPart(origin: string): (n: string) { origin[..IndexOf(origin, '!')] }

  function Mask(nick: string, username: Option<string>, hostname: Option<string>): (m: string) {
    nick + "!" + OrNull(username) + "@" + OrNull(hostname)
  }

  /** network_nick_set_nick. */
  function SetNick(n: Nick, nick: string): (r: Nick) {
    if n.nick == nick then n else n.(nick := nick, hostmask := Some(Mask(nick, n.username, n.hostname)))
  }

  /** network_nick_set_data. */
  function SetData(n: Nick, nick: string, username: string, hostname: string): (r: Nick) {
    var r := n.(nick := nick, username := Some(username), hostname := Some(hostname));
    if r == n then n else r.(hostmask := Some(Mask(nick, Some(username), Some(hostname))))
  }

  /** network_nick_set_hostmask on a mask that names somebody. */
  function SetHostmask(n: Nick, mask: string): (r: Nick)
    requires '!' in mask
  {
    if n.hostmask == Some(mask) then n
    else
      var t := IndexOf(mask, '!');
      var rest := mask[t + 1..];
      var u := IndexOf(rest, '@');
      n.(nick := mask[..t], hostmask := Some(mask),
         username := if u < |rest| then Some(rest[..u]) else None,
         hostname := if u < |rest| then Some(rest[u + 1..]) else None)
  }

  // ------------------------------------------------------------- JOIN, PART, KICK

  function JoinOne(s: Net, name: string, origin: string): (r: Net)
    requires Sound(s) && '!' in origin && OnePrefix(s.info, NickPart(origin))
    ensures Sound(r) && r.info == s.info
  {
    var s1 := AddChan(s, name);
    var i := FindChan(s, name);
    var nick := NickPart(origin);
    var s2 := AddMember(s1, i, nick);
    var j := FindMember(s1, i, StripPrefix(s.info, nick));
    assert j < |s2.channels[i].members|;
    var k := s2.channels[i].members[j].who;
    WithPerson(s2, k, SetHostmask(s2.people[k], origin))
  }

  function JoinAll(s: Net, names: seq<string>, origin: string): (r: Net)
    requires Sound(s) && '!' in origin && OnePrefix(s.info, NickPart(origin))
    ensures Sound(r) && r.info == s.info
    decreases |names|
  {
    if names == [] then s else JoinAll(JoinOne(s, names[0], origin), names[1..], origin)
  }

  function PartOne(s: Net, name: string, nick: string): (r: Net)
    requires Sound(s)
    ensures Sound(r) && r.info == s.info
  {
    var i := FindChan(s, name);
    if i == |s.channels| then s
    else
      var j := FindMember(s, i, nick);
      var s1 := if j < |s.channels[i].members| then DropMember(s, i, j) else s;
      if IsMe(s1, nick) then DropChan(s1, i) else s1
  }

  function PartAll(s: Net, names: seq<string>, nick: string): (r: Net)
    requires Sound(s)
    ensures Sound(r) && r.info == s.info
    decreases |names|
  {
    if names == [] then s else PartAll(PartOne(s, names[0], nick), names[1..], nick)
  }

  function KickOne(s: Net, name: string, nick: string): (r: Net)
    requires Sound(s)
    ensures Sound(r) && r.info == s.info
  {
    var i := FindChan(s, name);
    if i == |s.channels| then s
    else
      var j := FindMember(s, i, nick);
      if j == |s.channels[i].members| then s
      else
        var s1 := DropMember(s, i, j);
        if IsMe(s1, nick) then DropChan(s1, i) else s1
  }

  function KickAll(s: Net, names: seq<string>, nicks: seq<string>): (r: Net)
    requires Sound(s)
    ensures Sound(r) && r.info == s.info
    decreases |names|
  {
    if names == [] || nicks == [] then s
    else KickAll(KickOne(s, names[0], nicks[0]), names[1..], nicks[1..])
  }

  // ----------------------------------------------------------------- NAMES

  function AddNames(s: Net, i: nat, names: seq<string>): (r: Net)
    requires Sound(s) && i < |s.channels| && AllOnePrefix(s.info, names)
    ensures Sound(r) && r.info == s.info && |r.channels| == |s.channels|
    decreases |names|
  {
    if names == [] then s
    else AddNames(if names[0] == "" then s else AddMember(s, i, names[0]), i, names[1..])
  }

  /** The first reply of a series replaces the members. */
  function OpenNames(s: Net, i: nat, mode: string): (r: Net)
    requires Sound(s) && i < |s.channels|
    ensures Sound(r) && r.info == s.info && |r.channels| == |s.channels|
  {
    var s1 := WithChan(s, i, s.channels[i].data.(mode := if mode == "" then '\0' else mode[0]));
    if s1.channels[i].data.namreplyStarted then s1
    else
      var c := ClearMembers(s1, i);
      WithChan(c, i, c.channels[i].data.(namreplyStarted := true))
  }

  /** handle_namreply. */
  function NamReply(s: Net, i: nat, mode: string, names: seq<string>): (r: Net)
    requires Sound(s) && i < |s.channels| && AllOnePrefix(s.info, names)
    ensures Sound(r) && r.info == s.info && |r.channels| == |s.channels|
  {
    AddNames(OpenNames(s, i, mode), i, names)
  }

  // ------------------------------------------------------------------- MODE

  /** Change of one channel mode: None for the answer -1, else the number of arguments taken. */
  datatype Change = Change(state: Net, taken: Option<nat>)

  function Entries(d: ChanData, mode: char): (r: seq<ListEntry>) {
    if mode in d.lists then d.lists[mode] else []
  }

  function RemoveEntry(es: seq<ListEntry>, hostmask: string): (r: seq<ListEntry>) {
    if es == [] then [] else if es[0].hostmask == hostmask then es[1..]
    else [es[0]] + RemoveEntry(es[1..], hostmask)
  }

  function ToggleMode(modes: set<char>, on: bool, m: char): (r: set<char>) {
    if on then modes + {m} else modes - {m}
  }

  /** channel_state_change_mode. */
  function ChangeMode(s: Net, setter: Option<string>, i: nat, on: bool, m: char, arg: Option<string>,
                      now: int): (r: Change)
    requires Sound(s) && i < |s.channels| && ChanmodesOk(s.info)
    ensures Sound(r.state) && r.state.info == s.info && |r.state.channels| == |s.channels|
    ensures r.taken.Some? ==> r.taken.value <= 1
  {
    match ChanmodeType(s.info, m)
    case ListMode => ChangeList(s, setter, i, on, m, arg, now)
    case SettingMode => ChangeOption(s, i, on, m, arg)
    case OptSettingMode => ChangeOption(s, i, on, m, arg)
    case BoolMode =>
      if IsPrefixMode(s.info, m) then ChangeMemberMode(s, i, on, m, arg)
      else
        var d := s.channels[i].data;
        Change(WithChan(s, i, d.(modes := ToggleMode(d.modes, on, m))), Some(0))
    case UnknownMode =>
      if IsPrefixMode(s.info, m) then ChangeMemberMode(s, i, on, m, arg) else Change(s, Some(1))
  }

  /** is_prefix_mode. */
  predicate IsPrefixMode(info: Info, m: char) {
    PrefixByMode(info, m).Some? && PrefixByMode(info, m) != Some(' ')
  }

  function ChangeList(s: Net, setter: Option<string>, i: nat, on: bool, m: char, arg: Option<string>,
                      now: int): (r: Change)
    requires i < |s.channels|
  {
    var d := s.channels[i].data;
    if arg.None? then Change(s, None)
    else if m !in d.present then Change(s, Some(1))
    else if on then
      Change(WithChan(s, i, d.(lists := d.lists[m := Entries(d, m) + [ListEntry(arg.value, setter, now)]])), Some(1))
    else Change(WithChan(s, i, d.(lists := d.lists[m := RemoveEntry(Entries(d, m), arg.value)])), Some(1))
  }

  function ChangeMemberMode(s: Net, i: nat, on: bool, m: char, arg: Option<string>): (r: Change)
    requires Sound(s) && i < |s.channels|
    ensures Sound(r.state)
  {
    if arg.None? then Change(s, None)
    else
      var j := FindMember(s, i, arg.value);
      var ms := s.channels[i].members;
      if j == |ms| then Change(s, None)
      else Change(WithMembers(s, i, ms[j := ms[j].(modes := ToggleMode(ms[j].modes, on, m))]), Some(1))
  }

  function ChangeOption(s: Net, i: nat, on: bool, m: char, arg: Option<string>): (r: Change)
    requires i < |s.channels|
  {
    var d := s.channels[i].data;
    if !on then Change(WithChan(s, i, d.(options := d.options - {m})), Some(0))
    else if arg.None? then Change(s, None)
    else Change(WithChan(s, i, d.(options := d.options[m := arg.value])), Some(1))
  }

  function Nth(args: seq<string>, k: nat): (a: Option<string>) { if k < |args| then Some(args[k]) else None }

  /** The loop of handle_mode from the `p`-th mode character on, the next argument being `arg`. */
  function ModeLoop(s: Net, setter: Option<string>, i: nat, modes: string, args: seq<string>, arg: nat, on: bool,
                    now: int): (r: Net)
    requires Sound(s) && i < |s.channels| && ChanmodesOk(s.info)
    ensures Sound(r) && r.info == s.info && |r.channels| == |s.channels|
    decreases |modes|
  {
    if modes == "" then s
    else if modes[0] == '+' then ModeLoop(s, setter, i, modes[1..], args, arg, true, now)
    else if modes[0] == '-' then ModeLoop(s, setter, i, modes[1..], args, arg, false, now)
    else
      var c := ChangeMode(s, setter, i, on, modes[0], Nth(args, arg), now);
      if c.taken.None? then c.state
      else ModeLoop(c.state, setter, i, modes[1..], args,
                    if arg < |args| then arg + c.taken.value else arg, on, now)
  }

  /** User modes: no arguments. */
  function UserModes(modes: set<char>, text: string, on: bool): (r: set<char>)
    decreases |text|
  {
    if text == "" then modes
    else if text[0] == '+' then UserModes(modes, text[1..], true)
    else if text[0] == '-' then UserModes(modes, text[1..], false)
    else UserModes(ToggleMode(modes, on, text[0]), text[1..], on)
  }

  /** string2mode: the old modes are gone even when the text is refused. */
  function StringToModes(text: string): (r: set<char>) {
    if text == "" || (text[0] != '+' && text[0] != '-') then {} else UserModes({}, text, true)
  }

  function SetterOf(s: Net, nick: string): (r: Option<string>) {
    var k := FindPerson(s, nick); if k < |s.people| then Some(s.people[k].nick) else None
  }

  /** handle_mode. */
  function ModeLine(s: Net, l: Line, now: int): (r: Net)
    requires Sound(s) && Accepts(s, l) && CommandOf(l) == MODE && Complete(l)
    ensures Sound(r) && r.info == s.info
  {
    if IsChannelName(s.info, l.args[1]) then
      var i := FindChan(s, l.args[1]);
      if i == |s.channels| then s
      else ModeLoop(s, SetterOf(s, NickPart(l.origin.value)), i, l.args[2], l.args, 3, true, now)
    else
      var k := FindPerson(s, l.args[1]);
      var s1 := AddPerson(s, l.args[1]);
      WithPerson(s1, k, s1.people[k].(modes := UserModes(s1.people[k].modes, l.args[2], true)))
  }

  // ------------------------------------------------------------ smaller handlers

  /** strtol(s, NULL, 0): decimal, 0x hexadecimal or 0 octal. */
  function StrtolAuto(s: string): (n: int) {
    if s != "" && IsBlank(s[0]) then StrtolAuto(s[1..])
    else if s != "" && s[0] == '-' then 0 - Magnitude(s[1..])
    else if s != "" && s[0] == '+' then Magnitude(s[1..])
    else Magnitude(s)
  }

  function Magnitude(s: string): (n: nat) {
    if |s| > 2 && s[0] == '0' && (s[1] == 'x' || s[1] == 'X') && DigitValue(s[2]) < 16 then InBase(s[2..], 16, 0)
    else if s != "" && s[0] == '0' then InBase(s, 8, 0)
    else Digits(s, 0)
  }

  function DigitValue(c: char): (v: nat) {
    if '0' <= c <= '9' then c as int - '0' as int
    else if 'a' <= c <= 'f' then c as int - 'a' as int + 10
    else if 'A' <= c <= 'F' then c as int - 'A' as int + 10
    else 99
  }

  function InBase(s: string, b: nat, acc: nat): (n: nat) {
    if s != "" && DigitValue(s[0]) < b then InBase(s[1..], b, acc * b + DigitValue(s[0])) else acc
  }

  /** What strtol leaves unread; the whole text when there is no number. */
  function AfterNumber(s: string): (r: string) {
    var t := SkipBlanks(s);
    var d := if t != "" && (t[0] == '-' || t[0] == '+') then t[1..] else t;
    if d != "" && IsDigit(d[0]) then SkipDigits(d) else s
  }

  function SkipBlanks(s: string): (r: string) { if s != "" && IsBlank(s[0]) then SkipBlanks(s[1..]) else s }

  function SkipDigits(s: string): (r: string) { if s != "" && IsDigit(s[0]) then SkipDigits(s[1..]) else s }

  /** An entry of the ban (367), invite (346) or except (348) list; the first of a series
      replaces the list. */
  function ListReply(d: ChanData, m: char, e: ListEntry): (r: ChanData)
    ensures r.name == d.name
  {
    var started := if m == 'b' then d.banlistStarted else if m == 'I' then d.invitelistStarted else d.exceptlistStarted;
    SetStarted(d.(lists := d.lists[m := (if started then Entries(d, m) else []) + [e]]), m, true)
  }

  function SetStarted(d: ChanData, m: char, on: bool): (r: ChanData)
    ensures r.name == d.name
  {
    if m == 'b' then d.(banlistStarted := on)
    else if m == 'I' then d.(invitelistStarted := on)
    else d.(exceptlistStarted := on)
  }

  function ListEnd(d: ChanData, m: char): (r: ChanData)
    ensures r.name == d.name
  {
    SetStarted(d, m, false).(present := d.present + {m})
  }

  /** handle_whoreply. */
  function WhoReply(s: Net, a: seq<string>, now: int): (r: Net)
    requires Sound(s) && |a| >= 9
    ensures Sound(r) && r.info == s.info
  {
    var k := FindPerson(s, a[6]);
    var s1 := AddPerson(s, a[6]);
    var s2 := WithPerson(s1, k, WhoNick(s1.people[k], a));
    var i := FindChan(s2, a[2]);
    if i == |s2.channels| then s2
    else
      var j := FindMember(s2, i, a[6]);
      var ms := s2.channels[i].members;
      if j == |ms| then s2
      else WithMembers(s2, i, ms[j := ms[j].(lastFlags := Some(a[7]), lastUpdate := now)])
  }

  function WhoNick(n: Nick, a: seq<string>): (r: Nick)
    requires |a| >= 9
  {
    var rest := AfterNumber(a[8]);
    SetData(n, a[6], a[3], a[4]).(
      hops := Atoi(a[8]), server := Some(a[5]),
      fullname := if n.fullname.Some? then n.fullname
          else Some(if rest != "" && rest[0] == ' ' then rest[1..] else rest))
  }

  /** g_strstrip. */
  function Strip(s: string): (r: string) { DropTrailing(SkipBlanks(s)) }

  function DropTrailing(s: string): (r: string) {
    if s != "" && IsBlank(s[|s| - 1]) then DropTrailing(s[..|s| - 1]) else s
  }

  /** One entry of a USERHOST reply: nick=<sign>user@host. */
  function UserHost(s: Net, entry: string): (r: Net)
    requires Sound(s) && UserHostOk(s, entry)
    ensures Sound(r) && r.info == s.info
  {
    var e := IndexOf(entry, '=');
    if e == |entry| then s
    else
      var nick := entry[..e];
      var k := FindPerson(s, nick);
      var s1 := AddPerson(s, nick);
      WithPerson(s1, k, SetHostmask(s1.people[k], nick + "!" + entry[e + 2..]))
  }

  predicate UserHostOk(s: Net, entry: string) {
    var e := IndexOf(entry, '=');
    e < |entry| ==> e + 1 < |entry| && CanAdd(s, entry[..e])
  }

  predicate UserHostsOk(s: Net, entries: seq<string>)
    requires Sound(s)
    decreases |entries|
  {
    entries == [] || (UserHostOk(s, entries[0]) && UserHostsOk(UserHost(s, entries[0]), entries[1..]))
  }

  function UserHosts(s: Net, entries: seq<string>): (r: Net)
    requires Sound(s) && UserHostsOk(s, entries)
    ensures Sound(r) && r.info == s.info
    decreases |entries|
  {
    if entries == [] then s else UserHosts(UserHost(s, entries[0]), entries[1..])
  }

  function Quit(s: Net, nick: string): (r: Net)
    requires Sound(s)
    ensures Sound(r)
  {
    var k := FindPerson(s, nick);
    if k == |s.people| then s else if k == 0 then LeaveAll(s, 0) else ForgetPerson(s, k)
  }

  // ------------------------------------------------------------------ dispatch

  datatype Command =
    | JOIN | PART | KICK | QUIT | TOPIC | NICK | PRIVMSG | MODE
    | N001 | N004 | N005 | N221 | N302 | N324 | N329 | N332 | N333 | N331 | N353 | N366 | N367 | N368
    | N346 | N347 | N348 | N349 | N352 | N315 | N306 | N305 | OTHER

  function CommandNamed(c: string): (r: Command) {
    if AsciiEq("JOIN", c) then JOIN else if AsciiEq("PART", c) then PART
    else if AsciiEq("KICK", c) then KICK else if AsciiEq("QUIT", c) then QUIT
    else if AsciiEq("TOPIC", c) then TOPIC else if AsciiEq("NICK", c) then NICK
    else if AsciiEq("PRIVMSG", c) then PRIVMSG else if AsciiEq("MODE", c) then MODE
    else if c == "001" then N001 else if c == "004" then N004 else if c == "005" then N005
    else if c == "221" then N221 else if c == "302" then N302 else if c == "324" then N324
    else if c == "329" then N329 else if c == "332" then N332 else if c == "333" then N333
    else if c == "331" then N331 else if c == "353" then N353 else if c == "366" then N366
    else if c == "367" then N367 else if c == "368" then N368 else if c == "346" then N346
    else if c == "347" then N347 else if c == "348" then N348 else if c == "349" then N349
    else if c == "352" then N352 else if c == "315" then N315 else if c == "306" then N306
    else if c == "305" then N305 else OTHER
  }

  function CommandOf(l: Line): (r: Command) { if l.args == [] then OTHER else CommandNamed(l.args[0]) }

  /** The arguments a handler needs besides the command. */
  function MinArgs(c: Command): (n: nat) {
    match c
    case QUIT => 0
    case JOIN | PART | NICK | N001 | N221 | N331 | N315 | N306 | N305 => 1
    case KICK | TOPIC | PRIVMSG | MODE | N302 | N366 | N367 | N368 | N346 | N347 | N348 | N349 => 2
    case N005 | N324 | N329 | N332 | N333 => 3
    case N353 => 4
    case N004 => 5
    case N352 => 8
    case OTHER => 0
  }

  predicate Complete(l: Line) { |l.args| > MinArgs(CommandOf(l)) }

  predicate AllOnePrefix(info: Info, names: seq<string>) {
    forall k :: 0 <= k < |names| ==> OnePrefix(info, names[k])
  }

  /** The lines a handler gets through without running into an assertion or a NULL: a joining
      nick has a full mask, names carry at most one prefix, a topic is set on a known channel,
      and so on. */
  predicate Accepts(s: Net, l: Line)
    requires Sound(s)
  {
    Complete(l) ==>
      match CommandOf(l)
      case JOIN =>
        l.origin.Some? ==> '!' in l.origin.value && NickPart(l.origin.value) != "" &&
                           OnePrefix(s.info, NickPart(l.origin.value))
      case TOPIC => l.origin.Some? ==> KnownChan(s, l.args[1])
      case NICK => l.origin.Some? ==> CanAdd(s, NickPart(l.origin.value))
      case PRIVMSG => l.origin.Some? && Eq(s.info, l.args[1], s.people[0].nick) ==> CanAdd(s, NickPart(l.origin.value))
      case MODE =>
        && s.info.chantypes.Some? && ChanmodesOk(s.info)
        && (if IsChannelName(s.info, l.args[1])
            then KnownChan(s, l.args[1]) ==> l.origin.Some?
            else CanAdd(s, l.args[1]))
      case N005 => forall k :: 2 <= k < |l.args| - 1 ==> TokenOk(l.args[k])
      case N302 => UserHostsOk(s, StrSplit(Strip(l.args[2]), ' '))
      case N333 => KnownChan(s, l.args[2]) ==> |l.args| > 4
      case N353 => KnownChan(s, l.args[3]) ==> AllOnePrefix(s.info, StrSplit(l.args[4], ' '))
      case N346 | N348 | N367 => KnownChan(s, l.args[2]) ==> |l.args| > 3
      case N352 => CanAdd(s, l.args[6])
      case _ => true
  }

  /** Lines that only change the data of one channel. */
  predicate IsDataLine(c: Command) {
    c in {TOPIC, N324, N329, N331, N332, N333, N346, N347, N348, N349, N366, N367, N368}
  }

  function DataTarget(l: Line): (name: string)
    requires IsDataLine(CommandOf(l)) && Complete(l)
  {
    if CommandOf(l) == TOPIC || CommandOf(l) == N331 then l.args[1] else l.args[2]
  }

  predicate DataArgsOk(l: Line) {
    match CommandOf(l)
    case TOPIC => l.origin.Some?
    case N333 => |l.args| > 4
    case N346 | N348 | N367 => |l.args| > 3
    case _ => true
  }

  function DataChange(d: ChanData, l: Line, now: int): (r: ChanData)
    requires IsDataLine(CommandOf(l)) && Complete(l) && DataArgsOk(l)
    ensures r.name == d.name
  {
    var a := l.args;
    match CommandOf(l)
    case TOPIC => d.(topic := Some(a[2]), topicSetTime := now, topicSetBy := Some(NickPart(l.origin.value)))
    case N324 => d.(modes := StringToModes(a[3]), modeReceived := true)
    case N329 => d.(creationTime := Atoi(a[3]))
    case N332 => d.(topic := Some(a[3]))
    case N333 => d.(topicSetTime := StrtolAuto(a[4]), topicSetBy := Some(a[3]))
    case N331 => d.(topic := None)
    case N366 => d.(namreplyStarted := false)
    case N367 => ListReply(d, 'b', ListEntry(a[3], Nth(a, 4), if |a| > 5 then Atoi(a[5]) else 0))
    case N346 => ListReply(d, 'I', ListEntry(a[3], None, 0))
    case N348 => ListReply(d, 'e', ListEntry(a[3], None, 0))
    case N368 => ListEnd(d, 'b')
    case N347 => ListEnd(d, 'I')
    case N349 => ListEnd(d, 'e')
  }

  function DataStep(s: Net, l: Line, now: int): (r: Net)
    requires Sound(s) && Accepts(s, l) && Complete(l) && IsDataLine(CommandOf(l))
    ensures Sound(r) && r.info == s.info && r.people == s.people
  {
    if CommandOf(l) == TOPIC && l.origin.None? then s
    else
      var i := FindChan(s, DataTarget(l));
      if i == |s.channels| then s else WithChan(s, i, DataChange(s.channels[i].data, l, now))
  }

  /** Lines that change one nick, which they may introduce. */
  function RenameStep(s: Net, name: string, to: string): (r: Net)
    requires Sound(s)
    ensures Sound(r) && r.info == s.info
  {
    var k := FindPerson(s, name);
    var s1 := AddPerson(s, name);
    WithPerson(s1, k, SetNick(s1.people[k], to))
  }

  function QueryStep(s: Net, name: string): (r: Net)
    requires Sound(s)
    ensures Sound(r) && r.info == s.info
  {
    var k := FindPerson(s, name);
    var s1 := AddPerson(s, name);
    WithPerson(s1, k, s1.people[k].(query := true))
  }

  /** Lines that change who is on which channel. */
  predicate IsMemberLine(c: Command) { c in {JOIN, PART, KICK, QUIT, N353, N352} }

  function MemberStep(s: Net, l: Line, now: int): (r: Net)
    requires Sound(s) && Accepts(s, l) && Complete(l) && IsMemberLine(CommandOf(l))
    ensures Sound(r) && r.info == s.info
  {
    var a := l.args;
    match CommandOf(l)
    case JOIN => if l.origin.None? then s else JoinAll(s, StrSplit(a[1], ','), l.origin.value)
    case PART => if l.origin.None? then s else PartAll(s, StrSplit(a[1], ','), NickPart(l.origin.value))
    case KICK => if l.origin.None? then s else KickAll(s, StrSplit(a[1], ','), StrSplit(a[2], ','))
    case QUIT => if l.origin.None? then s else Quit(s, NickPart(l.origin.value))
    case N353 =>
      if !KnownChan(s, a[3]) then s
      else NamReply(s, FindChan(s, a[3]), a[2], StrSplit(a[4], ' '))
    case N352 => WhoReply(s, a, now)
  }

  function OtherStep(s: Net, l: Line, now: int): (r: Net)
    requires Sound(s) && Accepts(s, l) && Complete(l)
    requires !IsMemberLine(CommandOf(l)) && !IsDataLine(CommandOf(l))
    ensures Sound(r)
    ensures CommandOf(l) != N005 && CommandOf(l) != N004 ==> r.info == s.info
  {
    var a := l.args;
    match CommandOf(l)
    case NICK => if l.origin.None? then s else RenameStep(s, NickPart(l.origin.value), a[1])
    case PRIVMSG =>
      if l.origin.None? || !Eq(s.info, a[1], s.people[0].nick) then s
      else QueryStep(s, NickPart(l.origin.value))
    case MODE => ModeLine(s, l, now)
    case N001 => WithPerson(s, 0, s.people[0].(nick := a[1]))
    case N004 => s.(info := s.info.(userModes := Some(a[4]), channelModes := Some(a[5]), server := Some(a[2])))
    case N005 => s.(info := ParseTokens(s.info, a[2..|a| - 1]))
    case N221 => WithPerson(s, 0, s.people[0].(modes := StringToModes(a[1])))
    case N302 => UserHosts(s, StrSplit(Strip(a[2]), ' '))
    case N306 => s.(away := true)
    case N305 => s.(away := false)
    case N315 => s
    case OTHER => s
  }

  /** state_handle_data: the state after one line that arrived at time `now`. */
  function Step(s: Net, l: Line, now: int): (r: Net)
    requires Sound(s) && Accepts(s, l)
    ensures Sound(r)
    ensures CommandOf(l) != N005 && CommandOf(l) != N004 ==> r.info == s.info
  {
    if !Complete(l) then s
    else if IsDataLine(CommandOf(l)) then DataStep(s, l, now)
    else if IsMemberLine(CommandOf(l)) then MemberStep(s, l, now)
    else OtherStep(s, l, now)
  }

  // ---------------------------------------------------------------------- runs

  /** A line and the time it was handled at. */
  datatype Event = Event(line: Line, now: int)

  /** Every line of the run is one its handler gets through. */
  predicate Accepted(s: Net, es: seq<Event>)
    requires Sound(s)
    decreases |es|
  {
    es == [] || (Accepts(s, es[0].line) && Accepted(Step(s, es[0].line, es[0].now), es[1..]))
  }

  /** The state after a run of lines. */
  function Run(s: Net, es: seq<Event>): (r: Net)
    requires Sound(s) && Accepted(s, es)
    ensures Sound(r)
    decreases |es|
  {
    if es == [] then s else Run(Step(s, es[0].line, es[0].now), es[1..])
  }

  lemma {:induction false} RunSplit(s: Net, x: seq<Event>, y: seq<Event>)
    requires Sound(s)
    ensures Accepted(s, x + y) <==> Accepted(s, x) && Accepted(Run(s, x), y)
    ensures Accepted(s, x + y) ==> Run(s, x + y) == Run(Run(s, x), y)
    decreases |x|
  {
    hide Sound, Accepts, Step;
    if x == [] {
      assert x + y == y;
    } else {
      assert (x + y)[1..] == x[1..] + y && (x + y)[0] == x[0];
      if Accepts(s, x[0].line) {
        RunSplit(Step(s, x[0].line, x[0].now), x[1..], y);
      }
    }
  }
}
