/** The snapshot format of libirc/linestack.c: the whole network state written as indented
    text, one `name` or `name: value` per line, and read back in step. Every `Put` function
    gives the text it writes followed by what comes after it in the file. */
module Marshal {
  import opened Base
  import opened Casemap
  import opened Info
  import opened Line
  import opened State
  import opened Handlers
  import opened Unique

  /** What a reader took from the stream and what it left, or a failed read. */
  datatype Read<+T> = Got(value: T, rest: string) | Fail {
    predicate IsFailure() { Fail? }
    function PropagateFailure<U>(): (r: Read<U>)
      requires Fail?
    {
      Fail
    }
    function Extract(): (r: (T, string))
      requires Got?
    {
      (value, rest)
    }
  }

  // ----------------------------------------------------------------------- lines

  function Tabs(level: nat): (s: string)
    ensures |s| == level && NoBreak(s)
  {
    seq(level, _ => '\t')
  }

  /** marshall_set. */
  function Put(level: nat, name: string, value: Option<string>, tail: string): (s: string) {
    Tabs(level) + name + (if value.Some? then ": " + value.value else "") + "\n" + tail
  }

  /** g_io_channel_read_line: the line without its terminator, and the rest of the file. */
  function ReadLine(s: string): (r: Read<string>) {
    if s == "" then Fail else Got(Cut(s), s[LineEnd(s)..])
  }

  /** marshall_get: fails where the source asserts. */
  function Get(level: nat, name: string, s: string): (r: Read<Option<string>>) {
    var (line, rest) :- ReadLine(s);
    var head := Tabs(level) + name;
    if !(head <= line) then Fail
    else if |line| == |head| || line[|head|] != ':' then Got(None, rest)
    else if |line| == |head| + 1 then Fail
    else Got(Some(line[|head| + 2..]), rest)
  }

  predicate TextOk(v: Option<string>) { v.Some? ==> NoBreak(v.value) }

  /** What was set is got, and the reader stands where the writer stood. */
  lemma GetOfPut(level: nat, name: string, value: Option<string>, tail: string)
    requires NoBreak(name) && TextOk(value)
    ensures Get(level, name, Put(level, name, value, tail)) == Got(value, tail)
  {
    var head := Tabs(level) + name;
    var line := head + (if value.Some? then ": " + value.value else "");
    var s := Put(level, name, value, tail);
    assert s == line + ("\n" + tail);
    CutAtTail(line, "\n" + tail);
    assert s[|line|..] == "\n" + tail && s[|line| + 1..] == tail;
    if value.Some? {
      assert line[|head|] == ':' && line[|head| + 2..] == value.value;
    }
  }

  // ---------------------------------------------------------------------- scalars

  /** marshall_struct. */
  function GetStruct(level: nat, name: string, s: string): (r: Read<()>) {
    var (v, rest) :- Get(level, name, s);
    if v.Some? then Fail else Got((), rest)
  }

  /** marshall_bool. */
  function PutBool(level: nat, name: string, b: bool, tail: string): (s: string) {
    Put(level, name, Some(if b then "true" else "false"), tail)
  }

  function GetBool(level: nat, name: string, s: string): (r: Read<bool>) {
    var (v, rest) :- Get(level, name, s);
    if v == Some("true") then Got(true, rest) else if v == Some("false") then Got(false, rest) else Fail
  }

  /** marshall_char. */
  function PutChar(level: nat, name: string, c: char, tail: string): (s: string) {
    Put(level, name, Some(if c == '\0' then "" else [c]), tail)
  }

  function GetChar(level: nat, name: string, s: string): (r: Read<char>) {
    var (v, rest) :- Get(level, name, s);
    if v.None? then Fail else Got(if v.value == "" then '\0' else v.value[0], rest)
  }

  /** marshall_int: ten bytes hold nine characters. */
  function PutInt(level: nat, name: string, n: int, tail: string): (s: string) {
    var d := DecInt(n);
    Put(level, name, Some(if |d| > 9 then d[..9] else d), tail)
  }

  function GetInt(level: nat, name: string, s: string): (r: Read<int>) {
    var (v, rest) :- Get(level, name, s);
    if v.None? then Fail else Got(Atoi(v.value), rest)
  }

  /** marshall_time: read back with an automatic base. */
  function PutTime(level: nat, name: string, n: int, tail: string): (s: string) {
    Put(level, name, Some(DecInt(n)), tail)
  }

  function GetTime(level: nat, name: string, s: string): (r: Read<int>) {
    var (v, rest) :- Get(level, name, s);
    if v.None? then Fail else Got(StrtolAuto(v.value), rest)
  }

  /** The loop of mode2string from the `c`-th mode on. */
  function ModeLetters(modes: set<char>, c: nat): (s: string)
    decreases 255 - c
  {
    if c >= 255 then ""
    else (if c as char in modes then [c as char] else []) + ModeLetters(modes, c + 1)
  }

  /** mode2string; a NUL among the letters ends the string before it starts. */
  function ModesToString(modes: set<char>): (s: Option<string>) {
    if '\0' in modes || ModeLetters(modes, 0) == "" then None else Some("+" + ModeLetters(modes, 0))
  }

  function StringModes(s: Option<string>): (modes: set<char>) {
    if s.None? then {} else StringToModes(s.value)
  }

  /** marshall_modes. */
  function PutModes(level: nat, name: string, modes: set<char>, tail: string): (s: string) {
    Put(level, name, ModesToString(modes), tail)
  }

  function GetModes(level: nat, name: string, s: string): (r: Read<set<char>>) {
    var (v, rest) :- Get(level, name, s);
    Got(StringModes(v), rest)
  }

  // ------------------------------------------------------------ scalar round trips

  lemma GetBoolOfPut(level: nat, name: string, b: bool, tail: string)
    requires NoBreak(name)
    ensures GetBool(level, name, PutBool(level, name, b, tail)) == Got(b, tail)
  {
    GetOfPut(level, name, Some(if b then "true" else "false"), tail);
    assert "true" != "false" by { assert "true"[0] != "false"[0]; }
  }

  lemma GetCharOfPut(level: nat, name: string, c: char, tail: string)
    requires NoBreak(name) && !IsBreak(c)
    ensures GetChar(level, name, PutChar(level, name, c, tail)) == Got(c, tail)
  {
    GetOfPut(level, name, Some(if c == '\0' then "" else [c]), tail);
  }

  lemma {:induction false} DecLength(n: nat, k: nat, limit: nat)
    requires k >= 1 && n < limit && limit == Power10(k)
    ensures |Dec(n)| <= k
  {
    if n >= 10 {
      assert Power10(0) == 1;
      DecLength(n / 10, k - 1, Power10(k - 1));
    }
  }

  function Power10(k: nat): (n: nat) { if k == 0 then 1 else 10 * Power10(k - 1) }

  lemma Nine()
    ensures Power10(9) == 1_000_000_000
  {
    assert Power10(5) == 100_000;
  }

  lemma DecNoBreak(n: int)
    ensures NoBreak(DecInt(n))
  {
    var d := Dec(if n < 0 then -n else n);
    assert forall k :: 0 <= k < |d| ==> IsDigit(d[k]);
  }

  lemma GetIntOfPut(level: nat, name: string, n: nat, tail: string)
    requires NoBreak(name) && n < 1_000_000_000
    ensures GetInt(level, name, PutInt(level, name, n, tail)) == Got(n as int, tail)
  {
    Nine();
    DecLength(n, 9, Power10(9));
    DecNoBreak(n);
    GetOfPut(level, name, Some(DecInt(n)), tail);
    AtoiOfDecInt(n, "");
    assert DecInt(n) + "" == DecInt(n);
  }

  /** A number printed without leading zeros is not mistaken for octal or hexadecimal. */
  lemma {:induction false} DecFirst(n: nat)
    ensures Dec(n)[0] == '0' <==> n == 0
    ensures n == 0 ==> Dec(n) == "0"
  {
    if n >= 10 { DecFirst(n / 10); }
  }

  lemma MagnitudeOfDec(n: nat)
    ensures Magnitude(Dec(n)) == n
  {
    DecFirst(n);
    DigitsOfDec(n, "");
    assert Dec(n) + "" == Dec(n);
    if n == 0 {
      assert InBase("0", 8, 0) == InBase("", 8, 0) by { assert "0"[1..] == ""; }
    }
  }

  lemma StrtolOfDecInt(n: int)
    ensures StrtolAuto(DecInt(n)) == n
  {
    var m: nat := if n < 0 then -n else n;
    MagnitudeOfDec(m);
    assert IsDigit(Dec(m)[0]);
    if n < 0 {
      assert ("-" + Dec(m))[1..] == Dec(m);
    }
  }

  lemma GetTimeOfPut(level: nat, name: string, n: int, tail: string)
    requires NoBreak(name)
    ensures GetTime(level, name, PutTime(level, name, n, tail)) == Got(n, tail)
  {
    DecNoBreak(n);
    GetOfPut(level, name, Some(DecInt(n)), tail);
    StrtolOfDecInt(n);
  }

  /** Mode letters that a printed mode string keeps. */
  predicate ModesOk(modes: set<char>) {
    forall m :: m in modes ==> 0 < m as int < 255 && !IsBreak(m) && m != '+' && m != '-'
  }

  lemma {:induction false} ModeLettersOk(modes: set<char>, c: nat)
    requires ModesOk(modes)
    ensures NoBreak(ModeLetters(modes, c))
    decreases 255 - c
  {
    if c < 255 { ModeLettersOk(modes, c + 1); }
  }

  lemma {:induction false} UserModesOfLetters(modes: set<char>, c: nat, acc: set<char>)
    requires ModesOk(modes) && acc == set m | m in modes && m as int < c
    ensures UserModes(acc, ModeLetters(modes, c), true) == modes
    decreases 255 - c
  {
    if c >= 255 {
      assert acc == modes;
    } else {
      var rest := ModeLetters(modes, c + 1);
      var next := set m | m in modes && m as int < c + 1;
      UserModesOfLetters(modes, c + 1, next);
      if c as char in modes {
        assert ([c as char] + rest)[1..] == rest;
        assert next == acc + {c as char};
      } else {
        assert [] + rest == rest;
        assert next == acc;
      }
    }
  }

  /** string2mode undoes mode2string. */
  lemma StringModesOfModes(modes: set<char>)
    requires ModesOk(modes)
    ensures StringModes(ModesToString(modes)) == modes && TextOk(ModesToString(modes))
  {
    hide ModeLetters;
    UserModesOfLetters(modes, 0, {});
    ModeLettersOk(modes, 0);
    var t := ModeLetters(modes, 0);
    assert ("+" + t)[1..] == t;
  }

  lemma GetModesOfPut(level: nat, name: string, modes: set<char>, tail: string)
    requires NoBreak(name) && ModesOk(modes)
    ensures GetModes(level, name, PutModes(level, name, modes, tail)) == Got(modes, tail)
  {
    StringModesOfModes(modes);
    GetOfPut(level, name, ModesToString(modes), tail);
  }

  // ------------------------------------------------------------------------- nicks

  /** marshall_network_nick. */
  function PutNickFields(level: nat, n: Nick, tail: string): (s: string) {
    PutBool(level, "query", n.query, PutModes(level, "modes", n.modes, Put(level, "nick", Some(n.nick),
      Put(level, "fullname", n.fullname, Put(level, "username", n.username, Put(level, "hostname", n.hostname,
        Put(level, "hostmask", n.hostmask, Put(level, "server", n.server, tail))))))))
  }

  function PutNick(level: nat, name: string, n: Nick, tail: string): (s: string) {
    Put(level, name, None, PutNickFields(level + 1, n, tail))
  }

  /** The hop count is whatever the memory held. */
  function GetNickFields(level: nat, hops: int, s: string): (r: Read<Nick>) {
    var (query, s) :- GetBool(level, "query", s);
    var (modes, s) :- GetModes(level, "modes", s);
    var (nick, s) :- Get(level, "nick", s);
    var (fullname, s) :- Get(level, "fullname", s);
    var (username, s) :- Get(level, "username", s);
    var (hostname, s) :- Get(level, "hostname", s);
    var (hostmask, s) :- Get(level, "hostmask", s);
    var (server, s) :- Get(level, "server", s);
    if nick.None? then Fail
    else Got(Nick(query, nick.value, fullname, username, hostname, hostmask, modes, server, hops), s)
  }

  function GetNick(level: nat, name: string, hops: int, s: string): (r: Read<Nick>) {
    var (_, s) :- GetStruct(level, name, s);
    GetNickFields(level + 1, hops, s)
  }

  predicate NickOk(n: Nick) {
    && NoBreak(n.nick) && TextOk(n.fullname) && TextOk(n.username) && TextOk(n.hostname)
    && TextOk(n.hostmask) && TextOk(n.server) && ModesOk(n.modes)
  }

  lemma GetStructOfPut(level: nat, name: string, tail: string)
    requires NoBreak(name)
    ensures GetStruct(level, name, Put(level, name, None, tail)) == Got((), tail)
  {
    GetOfPut(level, name, None, tail);
  }

  lemma GetNickFieldsOfPut(level: nat, n: Nick, hops: int, tail: string)
    requires NickOk(n)
    ensures GetNickFields(level, hops, PutNickFields(level, n, tail)) == Got(n.(hops := hops), tail)
  {
    hide Put, Get, PutBool, GetBool, PutModes, GetModes, ModesOk, TextOk, NoBreak;
    Names();
    var s8 := tail;
    var s7 := Put(level, "server", n.server, s8);
    GetOfPut(level, "server", n.server, s8);
    var s6 := Put(level, "hostmask", n.hostmask, s7);
    GetOfPut(level, "hostmask", n.hostmask, s7);
    var s5 := Put(level, "hostname", n.hostname, s6);
    GetOfPut(level, "hostname", n.hostname, s6);
    var s4 := Put(level, "username", n.username, s5);
    GetOfPut(level, "username", n.username, s5);
    var s3 := Put(level, "fullname", n.fullname, s4);
    GetOfPut(level, "fullname", n.fullname, s4);
    var s2 := Put(level, "nick", Some(n.nick), s3);
    assert TextOk(Some(n.nick)) by { SomeOk(n.nick); }
    GetOfPut(level, "nick", Some(n.nick), s3);
    var s1 := PutModes(level, "modes", n.modes, s2);
    GetModesOfPut(level, "modes", n.modes, s2);
    GetBoolOfPut(level, "query", n.query, s1);
  }

  lemma SomeOk(s: string)
    requires NoBreak(s)
    ensures TextOk(Some(s))
  {}

  /** The field names are plain words. */
  lemma Names()
    ensures NoBreak("query") && NoBreak("modes") && NoBreak("nick") && NoBreak("fullname") && NoBreak("username")
    ensures NoBreak("hostname") && NoBreak("hostmask") && NoBreak("server") && NoBreak("count") && NoBreak("nicks")
    ensures NoBreak("mode") && NoBreak("name") && NoBreak("topic") && NoBreak("time") && NoBreak("by") && NoBreak("me")
    ensures NoBreak("channels")
  {}

  lemma LongNames()
    ensures NoBreak("namreply_started") && NoBreak("banlist_started") && NoBreak("invitelist_started")
    ensures NoBreak("exceptlist_started") && NoBreak("topic_set_by") && NoBreak("topic_set_time")
    ensures NoBreak("mode_nicklist[") && NoBreak("mode_option[")
  {}

  lemma GetNickOfPut(level: nat, name: string, n: Nick, hops: int, tail: string)
    requires NickOk(n) && NoBreak(name)
    ensures GetNick(level, name, hops, PutNick(level, name, n, tail)) == Got(n.(hops := hops), tail)
  {
    GetStructOfPut(level, name, PutNickFields(level + 1, n, tail));
    GetNickFieldsOfPut(level + 1, n, hops, tail);
  }

  // -------------------------------------------------------------------------- lists

  /** The name of the `i`-th element of a list. */
  function Element(i: nat): (s: string)
    ensures NoBreak(s)
  {
    assert forall k :: 0 <= k < |Dec(i)| ==> IsDigit(Dec(i)[k]);
    "[" + Dec(i) + "]"
  }

  /** The elements of a list of nicks from the `i`-th on. */
  function PutNicks(ns: seq<Nick>, i: nat, tail: string): (s: string)
    requires i <= |ns|
    decreases |ns| - i
  {
    if i == |ns| then tail else PutNick(1, Element(i), ns[i], PutNicks(ns, i + 1, tail))
  }

  function GetNicks(n: int, i: nat, hops: nat -> int, s: string): (r: Read<seq<Nick>>)
    decreases n - i
  {
    if i >= n then Got([], s)
    else
      var (x, s) :- GetNick(1, Element(i), hops(i), s);
      var (xs, s) :- GetNicks(n, i + 1, hops, s);
      Got([x] + xs, s)
  }

  function Refilled(ns: seq<Nick>, hops: nat -> int): (r: seq<Nick>)
    ensures |r| == |ns| && forall i :: 0 <= i < |r| ==> r[i] == ns[i].(hops := hops(i))
  {
    seq(|ns|, i requires 0 <= i < |ns| => ns[i].(hops := hops(i)))
  }

  lemma FirstOfRest<T>(s: seq<T>, i: nat)
    requires i < |s|
    ensures s[i..] == [s[i]] + s[i + 1..]
  {}

  lemma {:induction false} GetNicksOfPut(ns: seq<Nick>, i: nat, hops: nat -> int, tail: string)
    requires i <= |ns| && forall k :: 0 <= k < |ns| ==> NickOk(ns[k])
    ensures GetNicks(|ns|, i, hops, PutNicks(ns, i, tail)) == Got(Refilled(ns, hops)[i..], tail)
    decreases |ns| - i
  {
    hide PutNick, GetNick, NickOk;
    if i < |ns| {
      GetNicksOfPut(ns, i + 1, hops, tail);
      GetNickOfPut(1, Element(i), ns[i], hops(i), PutNicks(ns, i + 1, tail));
      FirstOfRest(Refilled(ns, hops), i);
    }
  }

  /** marshall_nicklist_entry. */
  function PutEntry(name: string, e: ListEntry, tail: string): (s: string) {
    Put(3, name, None, PutTime(4, "time", e.timeSet, Put(4, "hostmask", Some(e.hostmask), Put(4, "by", e.setBy, tail))))
  }

  function GetEntry(name: string, s: string): (r: Read<ListEntry>) {
    var (_, s) :- GetStruct(3, name, s);
    var (time, s) :- GetTime(4, "time", s);
    var (hostmask, s) :- Get(4, "hostmask", s);
    var (setBy, s) :- Get(4, "by", s);
    if hostmask.None? then Fail else Got(ListEntry(hostmask.value, setBy, time), s)
  }

  predicate EntryOk(e: ListEntry) { NoBreak(e.hostmask) && TextOk(e.setBy) }

  lemma GetEntryOfPut(name: string, e: ListEntry, tail: string)
    requires NoBreak(name) && EntryOk(e)
    ensures GetEntry(name, PutEntry(name, e, tail)) == Got(e, tail)
  {
    hide Put, Get, PutTime, GetTime, GetStruct, TextOk, NoBreak;
    Names();
    SomeOk(e.hostmask);
    var s3 := Put(4, "by", e.setBy, tail);
    GetOfPut(4, "by", e.setBy, tail);
    var s2 := Put(4, "hostmask", Some(e.hostmask), s3);
    GetOfPut(4, "hostmask", Some(e.hostmask), s3);
    GetTimeOfPut(4, "time", e.timeSet, s2);
    GetStructOfPut(3, name, PutTime(4, "time", e.timeSet, s2));
  }

  function PutEntries(es: seq<ListEntry>, i: nat, tail: string): (s: string)
    requires i <= |es|
    decreases |es| - i
  {
    if i == |es| then tail else PutEntry(Element(i), es[i], PutEntries(es, i + 1, tail))
  }

  function GetEntries(n: int, i: nat, s: string): (r: Read<seq<ListEntry>>)
    decreases n - i
  {
    if i >= n then Got([], s)
    else
      var (x, s) :- GetEntry(Element(i), s);
      var (xs, s) :- GetEntries(n, i + 1, s);
      Got([x] + xs, s)
  }

  lemma {:induction false} GetEntriesOfPut(es: seq<ListEntry>, i: nat, tail: string)
    requires i <= |es| && forall k :: 0 <= k < |es| ==> EntryOk(es[k])
    ensures GetEntries(|es|, i, PutEntries(es, i, tail)) == Got(es[i..], tail)
    decreases |es| - i
  {
    hide PutEntry, GetEntry, EntryOk;
    if i < |es| {
      GetEntriesOfPut(es, i + 1, tail);
      GetEntryOfPut(Element(i), es[i], PutEntries(es, i + 1, tail));
      FirstOfRest(es, i);
    }
  }

  /** marshall_GList on a list of masks. */
  function PutMaskList(name: string, es: seq<ListEntry>, tail: string): (s: string) {
    Put(2, name, None, PutInt(3, "count", |es|, PutEntries(es, 0, tail)))
  }

  function GetMaskList(name: string, s: string): (r: Read<seq<ListEntry>>) {
    var (_, s) :- GetStruct(2, name, s);
    var (n, s) :- GetInt(3, "count", s);
    GetEntries(n, 0, s)
  }

  predicate MaskListOk(es: seq<ListEntry>) { |es| < 1_000_000_000 && forall k :: 0 <= k < |es| ==> EntryOk(es[k]) }

  lemma GetMaskListOfPut(name: string, es: seq<ListEntry>, tail: string)
    requires NoBreak(name) && MaskListOk(es)
    ensures GetMaskList(name, PutMaskList(name, es, tail)) == Got(es, tail)
  {
    hide Put, Get, PutInt, GetInt, GetStruct, EntryOk, NoBreak;
    Names();
    GetEntriesOfPut(es, 0, tail);
    GetIntOfPut(3, "count", |es|, PutEntries(es, 0, tail));
    GetStructOfPut(2, name, PutInt(3, "count", |es|, PutEntries(es, 0, tail)));
  }

  // -------------------------------------------------------- the 255 per-letter slots

  function ListName(c: nat): (s: string)
    ensures NoBreak(s)
  {
    LongNames(); assert forall k :: 0 <= k < |Dec(c)| ==> IsDigit(Dec(c)[k]); "mode_nicklist[" + Dec(c) + "]"
  }

  function OptionName(c: nat): (s: string)
    ensures NoBreak(s)
  {
    LongNames(); assert forall k :: 0 <= k < |Dec(c)| ==> IsDigit(Dec(c)[k]); "mode_option[" + Dec(c) + "]"
  }

  function OptionOf(options: map<char, string>, m: char): (v: Option<string>) {
    if m in options then Some(options[m]) else None
  }

  function PutSlots(d: ChanData, c: nat, tail: string): (s: string)
    decreases 255 - c
  {
    if c >= 255 then tail
    else PutMaskList(ListName(c), Entries(d, c as char),
                     Put(2, OptionName(c), OptionOf(d.options, c as char), PutSlots(d, c + 1, tail)))
  }

  datatype Slots = Slots(lists: map<char, seq<ListEntry>>, options: map<char, string>)

  /** The lists and options read from slot `c` on; an empty list is no list. */
  function GetSlots(c: nat, s: string): (r: Read<Slots>)
    decreases 255 - c
  {
    if c >= 255 then Got(Slots(map[], map[]), s)
    else
      var (es, s) :- GetMaskList(ListName(c), s);
      var (o, s) :- Get(2, OptionName(c), s);
      var (more, s) :- GetSlots(c + 1, s);
      Got(Slots(if es == [] then more.lists else more.lists[c as char := es],
                if o.None? then more.options else more.options[c as char := o.value]), s)
  }

  /** The non-empty lists and the options of the letters from `c` on. */
  function SlotsFrom(d: ChanData, c: nat): (r: Slots) {
    Slots(map m | m in d.lists && c <= m as int < 255 && d.lists[m] != [] :: d.lists[m],
          map m | m in d.options && c <= m as int < 255 :: d.options[m])
  }

  predicate SlotsOk(d: ChanData) {
    && (forall m :: m in d.lists ==> MaskListOk(d.lists[m]))
    && (forall m :: m in d.options ==> NoBreak(d.options[m]) && m as int < 255)
  }

  lemma SlotsFromStep(d: ChanData, c: nat)
    requires c < 255
    ensures var m, more := c as char, SlotsFrom(d, c + 1);
            SlotsFrom(d, c) == Slots(if Entries(d, m) == [] then more.lists else more.lists[m := Entries(d, m)],
                                     if m in d.options then more.options[m := d.options[m]] else more.options)
  {
    var m, more, all := c as char, SlotsFrom(d, c + 1), SlotsFrom(d, c);
    assert all.lists == if Entries(d, m) == [] then more.lists else more.lists[m := Entries(d, m)];
    assert all.options == if m in d.options then more.options[m := d.options[m]] else more.options;
  }

  lemma {:induction false} GetSlotsOfPut(d: ChanData, c: nat, tail: string)
    requires SlotsOk(d)
    ensures GetSlots(c, PutSlots(d, c, tail)) == Got(SlotsFrom(d, c), tail)
    decreases 255 - c
  {
    hide PutMaskList, GetMaskList, Put, Get, MaskListOk, NoBreak, SlotsFrom;
    if c >= 255 {
      NoSlots(d, c);
    } else {
      var m := c as char;
      GetSlotsOfPut(d, c + 1, tail);
      var s2 := PutSlots(d, c + 1, tail);
      SlotOk(d, m);
      GetOfPut(2, OptionName(c), OptionOf(d.options, m), s2);
      GetMaskListOfPut(ListName(c), Entries(d, m), Put(2, OptionName(c), OptionOf(d.options, m), s2));
      SlotsFromStep(d, c);
    }
  }

  lemma SlotOk(d: ChanData, m: char)
    requires SlotsOk(d)
    ensures MaskListOk(Entries(d, m)) && TextOk(OptionOf(d.options, m))
  {}

  lemma NoSlots(d: ChanData, c: nat)
    requires c >= 255
    ensures SlotsFrom(d, c) == Slots(map[], map[])
  {
    assert SlotsFrom(d, c).lists == map[] && SlotsFrom(d, c).options == map[];
  }

  // ----------------------------------------------------------------------- members

  /** Ten bytes hold nine characters of the element's name. */
  function ShortItem(i: nat): (s: string)
    ensures NoBreak(s)
  {
    if |Element(i)| > 9 then Element(i)[..9] else Element(i)
  }

  function PutMembers(people: seq<Nick>, ms: seq<Member>, j: nat, tail: string): (s: string)
    requires j <= |ms| && forall k :: 0 <= k < |ms| ==> ms[k].who < |people|
    decreases |ms| - j
  {
    if j == |ms| then tail
    else Put(3, ShortItem(j), None, Put(4, "nick", Some(people[ms[j].who].nick),
      PutModes(4, "modes", ms[j].modes, PutMembers(people, ms, j + 1, tail))))
  }

  /** find_add_channel_nick on the nick that was read, then its modes. */
  function PullMember(s: Net, c: nat, nick: string, modes: set<char>): (r: Net)
    requires Sound(s) && c < |s.channels| && OnePrefix(s.info, nick)
    ensures Sound(r) && |r.channels| == |s.channels| && r.info == s.info
  {
    var s1 := AddMember(s, c, nick);
    var ms, j := s1.channels[c].members, FindMember(s, c, StripPrefix(s.info, nick));
    assert j < |ms|;
    WithMembers(s1, c, ms[j := ms[j].(modes := modes)])
  }

  function GetMembers(s: Net, c: nat, n: int, j: nat, t: string): (r: Read<Net>)
    requires Sound(s) && c < |s.channels|
    ensures r.Got? ==> Sound(r.value) && |r.value.channels| == |s.channels|
    decreases n - j
  {
    if j >= n then Got(s, t)
    else
      var (_, t) :- GetStruct(3, ShortItem(j), t);
      var (nick, t) :- Get(4, "nick", t);
      var (modes, t) :- GetModes(4, "modes", t);
      if nick.None? || !OnePrefix(s.info, nick.value) then Fail
      else GetMembers(PullMember(s, c, nick.value, modes), c, n, j + 1, t)
  }

  /** Somebody known who is not on the channel yet becomes its last member. */
  lemma PullKnownMember(s: Net, c: nat, k: nat, modes: set<char>)
    requires Sound(s) && c < |s.channels| && k < |s.people|
    requires DistinctNames(s.info.casemapping, PeopleNames(s.people)) && !HasPrefix(s.info, s.people[k].nick)
    requires forall j :: 0 <= j < |s.channels[c].members| ==> s.channels[c].members[j].who != k
    ensures OnePrefix(s.info, s.people[k].nick)
    ensures PullMember(s, c, s.people[k].nick, modes) ==
            WithMembers(s, c, s.channels[c].members + [Member(k, modes, 0, None)])
  {
    var nick, ms := s.people[k].nick, s.channels[c].members;
    PersonIsFound(s, k, nick);
    var all, names := PeopleNames(s.people), MemberNames(s.people, ms);
    forall j | 0 <= j < |names|
      ensures !Same(s.info.casemapping, names[j], nick)
    {
      var w := ms[j].who;
      assert all[w] == names[j] && all[k] == nick;
      assert !Same(s.info.casemapping, all[if w < k then w else k], all[if w < k then k else w]);
    }
    assert FindMember(s, c, nick) == |ms|;
    var r := ms + [Member(k, modes, 0, None)];
    assert (ms + [Member(k, {}, 0, None)])[|ms| := Member(k, modes, 0, None)] == r;
  }

  function Reborn(ms: seq<Member>): (r: seq<Member>)
    ensures |r| == |ms| && forall j :: 0 <= j < |r| ==> r[j] == Member(ms[j].who, ms[j].modes, 0, None)
  {
    seq(|ms|, j requires 0 <= j < |ms| => Member(ms[j].who, ms[j].modes, 0, None))
  }

  predicate MembersOk(people: seq<Nick>, ms: seq<Member>) {
    && SoundMembers(ms, |people|) && |ms| < 1_000_000_000
    && forall j :: 0 <= j < |ms| ==> ModesOk(ms[j].modes) && !HasPrefix(FRESH, people[ms[j].who].nick)
  }

  /** `people` may differ from those in the state by what is not marshalled. */
  predicate SameNicks(a: seq<Nick>, b: seq<Nick>) {
    |a| == |b| && forall k :: 0 <= k < |a| ==> a[k].nick == b[k].nick
  }

  /** One member read: the text side. */
  lemma GetMembersStep(s: Net, c: nat, people: seq<Nick>, ms: seq<Member>, j: nat, tail: string)
    requires Sound(s) && c < |s.channels| && j < |ms| && (forall k :: 0 <= k < |ms| ==> ms[k].who < |people|)
    requires var n := people[ms[j].who].nick; NoBreak(n) && OnePrefix(s.info, n)
    requires ModesOk(ms[j].modes)
    ensures GetMembers(s, c, |ms|, j, PutMembers(people, ms, j, tail)) ==
            GetMembers(PullMember(s, c, people[ms[j].who].nick, ms[j].modes), c, |ms|, j + 1,
                       PutMembers(people, ms, j + 1, tail))
  {
    hide Sound, Put, Get, GetStruct, GetModes, PutModes, ModesOk, PullMember, ShortItem, NoBreak, OnePrefix;
    Names();
    var m, nick := ms[j], people[ms[j].who].nick;
    SomeOk(nick);
    var t3 := PutMembers(people, ms, j + 1, tail);
    var t2 := PutModes(4, "modes", m.modes, t3);
    GetModesOfPut(4, "modes", m.modes, t3);
    GetOfPut(4, "nick", Some(nick), t2);
    GetStructOfPut(3, ShortItem(j), Put(4, "nick", Some(nick), t2));
  }

  /** One member read: the state side. */
  lemma PullNext(s: Net, c: nat, ms: seq<Member>, j: nat)
    requires Sound(s) && c < |s.channels| && j < |ms| && SoundMembers(ms, |s.people|)
    requires s.info == FRESH && DistinctNames(Unknown, PeopleNames(s.people))
    requires !HasPrefix(FRESH, s.people[ms[j].who].nick)
    requires s.channels[c].members == Reborn(ms)[..j]
    ensures OnePrefix(s.info, s.people[ms[j].who].nick)
    ensures PullMember(s, c, s.people[ms[j].who].nick, ms[j].modes) == WithMembers(s, c, Reborn(ms)[..j + 1])
  {
    hide Sound, DistinctNames, PullMember;
    PullKnownMember(s, c, ms[j].who, ms[j].modes);
    assert Reborn(ms)[..j + 1] == Reborn(ms)[..j] + [Member(ms[j].who, ms[j].modes, 0, None)];
  }

  lemma {:induction false} GetMembersOfPut(s: Net, c: nat, people: seq<Nick>, ms: seq<Member>, j: nat, tail: string)
    requires Sound(s) && c < |s.channels| && j <= |ms| && MembersOk(people, ms)
    requires s.info == FRESH && SameNicks(people, s.people) && DistinctNames(Unknown, PeopleNames(s.people))
    requires forall k :: 0 <= k < |people| ==> NickOk(people[k])
    requires s.channels[c].members == Reborn(ms)[..j]
    ensures GetMembers(s, c, |ms|, j, PutMembers(people, ms, j, tail)) == Got(WithMembers(s, c, Reborn(ms)), tail)
    decreases |ms| - j
  {
    hide Sound, ModesOk, PullMember, NoBreak, DistinctNames, OnePrefix;
    if j == |ms| {
      assert Reborn(ms)[..j] == Reborn(ms);
      assert WithMembers(s, c, Reborn(ms)) == s;
    } else {
      assert NickOk(people[ms[j].who]);
      PullNext(s, c, ms, j);
      GetMembersStep(s, c, people, ms, j, tail);
      var s1 := WithMembers(s, c, Reborn(ms)[..j + 1]);
      GetMembersOfPut(s1, c, people, ms, j + 1, tail);
      assert WithMembers(s1, c, Reborn(ms)) == WithMembers(s, c, Reborn(ms));
    }
  }

  // ---------------------------------------------------------------------- channels

  /** What a freshly allocated channel holds in the fields that are not in the file. */
  datatype Junk = Junk(creationTime: int, modeReceived: bool, present: set<char>)

  /** marshall_channel_state up to the members. */
  function PutChanData(d: ChanData, tail: string): (s: string) {
    PutChar(2, "mode", d.mode, PutModes(2, "modes", d.modes, PutBool(2, "namreply_started", d.namreplyStarted,
      PutBool(2, "banlist_started", d.banlistStarted, PutBool(2, "invitelist_started", d.invitelistStarted,
        PutBool(2, "exceptlist_started", d.exceptlistStarted, PutTopic(d, PutSlots(d, 0, tail))))))))
  }

  function PutTopic(d: ChanData, tail: string): (s: string) {
    Put(2, "name", Some(d.name), Put(2, "topic", d.topic, Put(2, "topic_set_by", d.topicSetBy,
      PutTime(2, "topic_set_time", d.topicSetTime, tail))))
  }

  datatype Flagged = Flagged(mode: char, modes: set<char>, namreply: bool, banlist: bool, invitelist: bool,
                             exceptlist: bool)

  datatype Topic = Topic(name: string, topic: Option<string>, setBy: Option<string>, setTime: int)

  function GetFlagged(s: string): (r: Read<Flagged>) {
    var (mode, s) :- GetChar(2, "mode", s);
    var (modes, s) :- GetModes(2, "modes", s);
    var (namreply, s) :- GetBool(2, "namreply_started", s);
    var (banlist, s) :- GetBool(2, "banlist_started", s);
    var (invitelist, s) :- GetBool(2, "invitelist_started", s);
    var (exceptlist, s) :- GetBool(2, "exceptlist_started", s);
    Got(Flagged(mode, modes, namreply, banlist, invitelist, exceptlist), s)
  }

  function GetTopic(s: string): (r: Read<Topic>) {
    var (name, s) :- Get(2, "name", s);
    var (topic, s) :- Get(2, "topic", s);
    var (setBy, s) :- Get(2, "topic_set_by", s);
    var (setTime, s) :- GetTime(2, "topic_set_time", s);
    if name.None? then Fail else Got(Topic(name.value, topic, setBy, setTime), s)
  }

  function GetChanData(junk: Junk, s: string): (r: Read<ChanData>) {
    var (f, s) :- GetFlagged(s);
    var (t, s) :- GetTopic(s);
    var (slots, s) :- GetSlots(0, s);
    Got(ChanData(t.name, t.topic, t.setTime, t.setBy, f.mode, f.modes, junk.creationTime,
                 f.namreply, f.banlist, f.invitelist, f.exceptlist,
                 junk.modeReceived, slots.lists, junk.present, slots.options), s)
  }

  predicate ChanDataOk(d: ChanData) {
    && !IsBreak(d.mode) && ModesOk(d.modes) && NoBreak(d.name) && TextOk(d.topic) && TextOk(d.topicSetBy) && SlotsOk(d)
  }

  /** What reading a channel gives: the same but for the fields that are not in the file. */
  function RefilledData(d: ChanData, junk: Junk): (r: ChanData) {
    d.(creationTime := junk.creationTime, modeReceived := junk.modeReceived, present := junk.present,
       lists := SlotsFrom(d, 0).lists, options := SlotsFrom(d, 0).options)
  }

  lemma GetTopicOfPut(d: ChanData, tail: string)
    requires NoBreak(d.name) && TextOk(d.topic) && TextOk(d.topicSetBy)
    ensures GetTopic(PutTopic(d, tail)) == Got(Topic(d.name, d.topic, d.topicSetBy, d.topicSetTime), tail)
  {
    hide Put, Get, PutTime, GetTime, TextOk, NoBreak;
    Names();
    LongNames();
    SomeOk(d.name);
    var s3 := PutTime(2, "topic_set_time", d.topicSetTime, tail);
    GetTimeOfPut(2, "topic_set_time", d.topicSetTime, tail);
    var s2 := Put(2, "topic_set_by", d.topicSetBy, s3);
    GetOfPut(2, "topic_set_by", d.topicSetBy, s3);
    var s1 := Put(2, "topic", d.topic, s2);
    GetOfPut(2, "topic", d.topic, s2);
    GetOfPut(2, "name", Some(d.name), s1);
  }

  lemma GetChanDataOfPut(d: ChanData, junk: Junk, tail: string)
    requires ChanDataOk(d)
    ensures GetChanData(junk, PutChanData(d, tail)) == Got(RefilledData(d, junk), tail)
  {
    hide PutTopic, GetTopic, PutSlots, GetSlots, PutChar, GetChar, PutModes, GetModes, PutBool, GetBool;
    hide ModesOk, TextOk, NoBreak, SlotsOk, SlotsFrom;
    Names();
    LongNames();
    var s7 := PutSlots(d, 0, tail);
    GetSlotsOfPut(d, 0, tail);
    var s6 := PutTopic(d, s7);
    GetTopicOfPut(d, s7);
    var s5 := PutBool(2, "exceptlist_started", d.exceptlistStarted, s6);
    GetBoolOfPut(2, "exceptlist_started", d.exceptlistStarted, s6);
    var s4 := PutBool(2, "invitelist_started", d.invitelistStarted, s5);
    GetBoolOfPut(2, "invitelist_started", d.invitelistStarted, s5);
    var s3 := PutBool(2, "banlist_started", d.banlistStarted, s4);
    GetBoolOfPut(2, "banlist_started", d.banlistStarted, s4);
    var s2 := PutBool(2, "namreply_started", d.namreplyStarted, s3);
    GetBoolOfPut(2, "namreply_started", d.namreplyStarted, s3);
    var s1 := PutModes(2, "modes", d.modes, s2);
    GetModesOfPut(2, "modes", d.modes, s2);
    GetCharOfPut(2, "mode", d.mode, s1);
  }

  function PutChan(people: seq<Nick>, name: string, c: Chan, tail: string): (s: string)
    requires forall k :: 0 <= k < |c.members| ==> c.members[k].who < |people|
  {
    Put(1, name, None, PutChanData(c.data,
      Put(2, "nicks", None, PutInt(3, "count", |c.members|, PutMembers(people, c.members, 0, tail)))))
  }

  function GetChan(s: Net, name: string, junk: Junk, t: string): (r: Read<Net>)
    requires Sound(s)
    ensures r.Got? ==> Sound(r.value)
  {
    var (_, t) :- GetStruct(1, name, t);
    var (d, t) :- GetChanData(junk, t);
    var (_, t) :- GetStruct(2, "nicks", t);
    var (n, t) :- GetInt(3, "count", t);
    GetMembers(s.(channels := s.channels + [Chan(d, [])]), |s.channels|, n, 0, t)
  }

  function RefilledChan(c: Chan, junk: Junk): (r: Chan) { Chan(RefilledData(c.data, junk), Reborn(c.members)) }

  predicate ChanOk(people: seq<Nick>, c: Chan) { ChanDataOk(c.data) && MembersOk(people, c.members) }

  /** The state a file is read into, as far as it is read. */
  predicate Reading(s: Net, people: seq<Nick>) {
    && Sound(s) && s.info == FRESH && SameNicks(people, s.people) && DistinctNames(Unknown, PeopleNames(s.people))
    && forall k :: 0 <= k < |people| ==> NickOk(people[k])
  }

  lemma GetChanOfPut(s: Net, people: seq<Nick>, name: string, c: Chan, junk: Junk, tail: string)
    requires Reading(s, people) && NoBreak(name) && ChanOk(people, c)
    ensures GetChan(s, name, junk, PutChan(people, name, c, tail)) ==
            Got(s.(channels := s.channels + [RefilledChan(c, junk)]), tail)
  {
    hide Put, Get, GetStruct, PutInt, GetInt, PutChanData, GetChanData, PutMembers, GetMembers, RefilledData;
    hide ChanDataOk, NoBreak, DistinctNames, NickOk, Sound;
    Names();
    var ms := c.members;
    var t4 := PutMembers(people, ms, 0, tail);
    var t3 := PutInt(3, "count", |ms|, t4);
    GetIntOfPut(3, "count", |ms|, t4);
    var t2 := Put(2, "nicks", None, t3);
    GetStructOfPut(2, "nicks", t3);
    GetChanDataOfPut(c.data, junk, t2);
    GetStructOfPut(1, name, PutChanData(c.data, t2));
    var d := RefilledData(c.data, junk);
    var s1 := s.(channels := s.channels + [Chan(d, [])]);
    EmptyChanSound(s, d);
    assert Reborn(ms)[..0] == [];
    GetMembersOfPut(s1, |s.channels|, people, ms, 0, tail);
    assert WithMembers(s1, |s.channels|, Reborn(ms)) == s.(channels := s.channels + [RefilledChan(c, junk)]);
  }

  lemma EmptyChanSound(s: Net, d: ChanData)
    requires Sound(s)
    ensures Sound(s.(channels := s.channels + [Chan(d, [])]))
  {}

  predicate MembersKnown(people: seq<Nick>, cs: seq<Chan>) {
    forall x, k :: 0 <= x < |cs| && 0 <= k < |cs[x].members| ==> cs[x].members[k].who < |people|
  }

  function PutChans(people: seq<Nick>, cs: seq<Chan>, i: nat, tail: string): (s: string)
    requires i <= |cs| && MembersKnown(people, cs)
    decreases |cs| - i
  {
    if i == |cs| then tail else PutChan(people, Element(i), cs[i], PutChans(people, cs, i + 1, tail))
  }

  function GetChans(s: Net, n: int, i: nat, junk: nat -> Junk, t: string): (r: Read<Net>)
    requires Sound(s)
    ensures r.Got? ==> Sound(r.value)
    decreases n - i
  {
    if i >= n then Got(s, t)
    else
      var (s1, t) :- GetChan(s, Element(i), junk(i), t);
      GetChans(s1, n, i + 1, junk, t)
  }

  function RefilledChans(cs: seq<Chan>, junk: nat -> Junk): (r: seq<Chan>)
    ensures |r| == |cs| && forall i :: 0 <= i < |r| ==> r[i] == RefilledChan(cs[i], junk(i))
  {
    seq(|cs|, i requires 0 <= i < |cs| => RefilledChan(cs[i], junk(i)))
  }

  lemma {:induction false} GetChansOfPut(s: Net, people: seq<Nick>, cs: seq<Chan>, i: nat, junk: nat -> Junk,
                                         tail: string)
    requires Reading(s, people) && i <= |cs| && MembersKnown(people, cs)
    requires (forall x :: 0 <= x < |cs| ==> ChanOk(people, cs[x]))
    requires s.channels == RefilledChans(cs, junk)[..i]
    ensures GetChans(s, |cs|, i, junk, PutChans(people, cs, i, tail)) ==
            Got(s.(channels := RefilledChans(cs, junk)), tail)
    decreases |cs| - i
  {
    hide PutChan, GetChan, RefilledChan, Sound, DistinctNames, NickOk;
    if i == |cs| {
      assert RefilledChans(cs, junk)[..i] == RefilledChans(cs, junk);
    } else {
      var s1 := s.(channels := s.channels + [RefilledChan(cs[i], junk(i))]);
      GetChanOfPut(s, people, Element(i), cs[i], junk(i), PutChans(people, cs, i + 1, tail));
      assert RefilledChans(cs, junk)[..i + 1] == s1.channels;
      RefilledSound(s, people, cs[i], junk(i));
      GetChansOfPut(s1, people, cs, i + 1, junk, tail);
    }
  }

  lemma RefilledSound(s: Net, people: seq<Nick>, c: Chan, junk: Junk)
    requires Reading(s, people) && ChanOk(people, c)
    ensures Reading(s.(channels := s.channels + [RefilledChan(c, junk)]), people)
  {
    hide NickOk, ChanDataOk, DistinctNames;
    assert SoundMembers(Reborn(c.members), |s.people|);
  }

  // ---------------------------------------------------------------------- the state

  /** What the memory of a state read back held before. */
  datatype Garbage = Garbage(hops: nat -> int, chans: nat -> Junk)

  /** marshall_network_state, writing. */
  function PutNet(s: Net): (t: string)
    requires Sound(s)
  {
    PutNick(0, "me", s.people[0],
      Put(0, "nicks", None, PutInt(1, "count", |s.people| - 1, PutNicks(s.people[1..], 0,
        Put(0, "channels", None, PutInt(1, "count", |s.channels|, PutChans(s.people, s.channels, 0, "")))))))
  }

  /** marshall_network_state, reading into a fresh state. */
  function GetNet(g: Garbage, t: string): (r: Read<Net>)
    ensures r.Got? ==> Sound(r.value)
  {
    var (me, t) :- GetNick(0, "me", 0, t);
    var (_, t) :- GetStruct(0, "nicks", t);
    var (n, t) :- GetInt(1, "count", t);
    var (nicks, t) :- GetNicks(n, 0, g.hops, t);
    var (_, t) :- GetStruct(0, "channels", t);
    var (m, t) :- GetInt(1, "count", t);
    if !me.query then Fail else GetChans(Net([], [me] + nicks, FRESH, false), m, 0, g.chans, t)
  }

  /** A state that can be written: no line breaks in its strings, plain mode letters, counts of
      at most nine digits, nicks distinct under RFC 1459 folding, members without a prefix. */
  predicate Writable(s: Net) {
    && Sound(s) && |s.people| < 1_000_000_000 && |s.channels| < 1_000_000_000
    && DistinctNames(Unknown, PeopleNames(s.people))
    && (forall k :: 0 <= k < |s.people| ==> NickOk(s.people[k]))
    && (forall i :: 0 <= i < |s.channels| ==> ChanOk(s.people, s.channels[i]))
  }

  /** What reading gives back: every marshalled field, the order of channels, nicks and members,
      and who is on which channel; the rest is fresh or whatever memory held. */
  function RefilledNet(s: Net, g: Garbage): (r: Net)
    requires Sound(s)
  {
    Net(RefilledChans(s.channels, g.chans), [s.people[0].(hops := 0)] + Refilled(s.people[1..], g.hops), FRESH, false)
  }

  /** Reading what was written restores the state. */
  lemma GetNetOfPut(s: Net, g: Garbage)
    requires Writable(s)
    ensures GetNet(g, PutNet(s)) == Got(RefilledNet(s, g), "")
  {
    hide Sound, DistinctNames, NickOk, ChanOk, Put, Get, GetStruct, PutInt, GetInt, PutNick, GetNick;
    hide PutNicks, GetNicks, PutChans, GetChans, NoBreak;
    Names();
    var people, cs := s.people, s.channels;
    SoundFacts(s);
    var t6 := PutChans(people, cs, 0, "");
    var t5 := PutInt(1, "count", |cs|, t6);
    GetIntOfPut(1, "count", |cs|, t6);
    var t4 := Put(0, "channels", None, t5);
    GetStructOfPut(0, "channels", t5);
    var t3 := PutNicks(people[1..], 0, t4);
    GetNicksOfPut(people[1..], 0, g.hops, t4);
    var t2 := PutInt(1, "count", |people| - 1, t3);
    GetIntOfPut(1, "count", |people| - 1, t3);
    var t1 := Put(0, "nicks", None, t2);
    GetStructOfPut(0, "nicks", t2);
    GetNickOfPut(0, "me", people[0], 0, t1);
    var s0 := RefilledNet(s, g).(channels := []);
    ReadingStarts(s, g);
    assert RefilledChans(cs, g.chans)[..0] == [];
    GetChansOfPut(s0, people, cs, 0, g.chans, "");
    assert Refilled(people[1..], g.hops)[0..] == Refilled(people[1..], g.hops);
    assert |people[1..]| == |people| - 1;
    assert GetNet(g, PutNet(s)) == GetChans(s0, |cs|, 0, g.chans, t6);
  }

  lemma SoundFacts(s: Net)
    requires Sound(s)
    ensures |s.people| >= 1 && s.people[0].query
    ensures MembersKnown(s.people, s.channels)
  {}

  lemma ReadingStarts(s: Net, g: Garbage)
    requires Writable(s)
    ensures Reading(RefilledNet(s, g).(channels := []), s.people)
  {
    hide NickOk, ChanOk;
    var r := RefilledNet(s, g);
    assert forall k :: 0 <= k < |s.people| ==> r.people[k].nick == s.people[k].nick;
    assert PeopleNames(r.people) == PeopleNames(s.people);
  }
}
