/** The marshaller of libirc/linestack.c at work on a file: writing appends, reading moves a
    cursor, and lists are loops. Each method does what a function of Marshal says. */
module StateFile {
  import opened Base
  import opened Casemap
  import opened Info
  import opened Line
  import opened State
  import opened Handlers
  import opened Unique
  import opened Marshal

  /** What a reader promises: the value and the text left, or a failure. */
  ghost predicate Reads<T>(r: Read<T>, v: Option<T>, rest: string) {
    if v.Some? then r == Got(v.value, rest) else r.Fail?
  }

  /** A read whose values are put after others. */
  function Behind<T>(first: seq<T>, r: Read<seq<T>>): (q: Read<seq<T>>) {
    if r.Got? then Got(first + r.value, r.rest) else Fail
  }

  lemma BehindNothing<T>(r: Read<seq<T>>)
    ensures Behind([], r) == r
  {
    if r.Got? { assert [] + r.value == r.value; }
  }

  lemma NicksStep(n: int, i: nat, hops: nat -> int, acc: seq<Nick>, s: string, x: Nick, rest: string)
    requires i < n
    ensures GetNick(1, Element(i), hops(i), s) == Got(x, rest) ==>
              Behind(acc, GetNicks(n, i, hops, s)) == Behind(acc + [x], GetNicks(n, i + 1, hops, rest))
    ensures GetNick(1, Element(i), hops(i), s).Fail? ==> GetNicks(n, i, hops, s).Fail?
  {
    hide GetNick;
    var r := GetNicks(n, i + 1, hops, rest);
    if r.Got? {
      assert acc + ([x] + r.value) == acc + [x] + r.value;
    }
  }

  lemma EntriesStep(n: int, i: nat, acc: seq<ListEntry>, s: string, x: ListEntry, rest: string)
    requires i < n
    ensures GetEntry(Element(i), s) == Got(x, rest) ==>
            Behind(acc, GetEntries(n, i, s)) == Behind(acc + [x], GetEntries(n, i + 1, rest))
    ensures GetEntry(Element(i), s).Fail? ==> GetEntries(n, i, s).Fail?
  {
    hide GetEntry;
    var r := GetEntries(n, i + 1, rest);
    if r.Got? {
      assert acc + ([x] + r.value) == acc + [x] + r.value;
    }
  }

  /** A read of later slots on top of the earlier ones. */
  function Over(lists: map<char, seq<ListEntry>>, options: map<char, string>, r: Read<Slots>): (q: Read<Slots>) {
    if r.Got? then Got(Slots(lists + r.value.lists, options + r.value.options), r.rest) else Fail
  }

  lemma OverNothing(r: Read<Slots>)
    ensures Over(map[], map[], r) == r
  {
    if r.Got? {
      assert map[] + r.value.lists == r.value.lists && map[] + r.value.options == r.value.options;
    }
  }

  /** Slots from `c` on hold nothing for earlier letters. */
  lemma {:induction false} SlotsAfter(c: nat, s: string)
    ensures GetSlots(c, s).Got? ==>
              forall m :: m in GetSlots(c, s).value.lists || m in GetSlots(c, s).value.options ==> c <= m as int < 255
    decreases 255 - c
  {
    hide GetMaskList, Get;
    if c < 255 {
      var es := GetMaskList(ListName(c), s);
      if es.Got? {
        var o := Get(2, OptionName(c), es.rest);
        if o.Got? { SlotsAfter(c + 1, o.rest); }
      }
    }
  }

  lemma SlotStep(c: nat, lists: map<char, seq<ListEntry>>, options: map<char, string>, s: string,
                 es: seq<ListEntry>, t: string, o: Option<string>, rest: string)
    requires c < 255 && GetMaskList(ListName(c), s) == Got(es, t) && Get(2, OptionName(c), t) == Got(o, rest)
    requires forall m :: m in lists || m in options ==> m as int < c
    ensures var l := if es != [] then lists[c as char := es] else lists;
            var p := if o.Some? then options[c as char := o.value] else options;
            Over(lists, options, GetSlots(c, s)) == Over(l, p, GetSlots(c + 1, rest))
  {
    hide GetMaskList, Get;
    SlotsAfter(c + 1, rest);
    var more := GetSlots(c + 1, rest);
    if more.Got? {
      var m := c as char;
      assert lists + more.value.lists[m := es] == lists[m := es] + more.value.lists;
      if o.Some? {
        assert options + more.value.options[m := o.value] == options[m := o.value] + more.value.options;
      }
    }
  }

  lemma StartsSound(s: Net)
    requires s.channels == [] && |s.people| >= 1 && s.people[0].query
    ensures Sound(s)
  {}

  class SnapshotFile {
    var data: string
    var pos: nat

    constructor (text: string)
      ensures data == text && pos == 0
    {
      data, pos := text, 0;
    }

    /** What is still to be read. */
    function Rest(): (s: string)
      reads this
    {
      if pos <= |data| then data[pos..] else ""
    }

    // --------------------------------------------------------------------- writing

    /** marshall_set. A `tail` is what will be written later: the text written and the tail are
        together the text with that tail. */
    method Set(level: nat, name: string, value: Option<string>, ghost tail: string)
      modifies this`data
      ensures data + tail == old(data) + Put(level, name, value, tail)
    {
      data := data + (Tabs(level) + name);
      if value.Some? { data := data + ": " + value.value; }
      data := data + "\n";
    }

    /** marshall_network_nick, writing. */
    method WriteNick(level: nat, name: string, n: Nick, ghost tail: string)
      modifies this`data
      ensures data + tail == old(data) + PutNick(level, name, n, tail)
    {
      hide Put;
      var k := level + 1;
      ghost var t8 := Put(k, "server", n.server, tail);
      ghost var t7 := Put(k, "hostmask", n.hostmask, t8);
      ghost var t6 := Put(k, "hostname", n.hostname, t7);
      ghost var t5 := Put(k, "username", n.username, t6);
      ghost var t4 := Put(k, "fullname", n.fullname, t5);
      ghost var t3 := Put(k, "nick", Some(n.nick), t4);
      ghost var t2 := PutModes(k, "modes", n.modes, t3);
      Set(level, name, None, PutBool(k, "query", n.query, t2));
      Set(k, "query", Some(if n.query then "true" else "false"), t2);
      Set(k, "modes", ModesToString(n.modes), t3);
      Set(k, "nick", Some(n.nick), t4);
      Set(k, "fullname", n.fullname, t5);
      Set(k, "username", n.username, t6);
      Set(k, "hostname", n.hostname, t7);
      Set(k, "hostmask", n.hostmask, t8);
      Set(k, "server", n.server, tail);
    }

    method WriteInt(level: nat, name: string, n: int, ghost tail: string)
      modifies this`data
      ensures data + tail == old(data) + PutInt(level, name, n, tail)
    {
      hide Put;
      var d := DecInt(n);
      Set(level, name, Some(if |d| > 9 then d[..9] else d), tail);
    }

    /** marshall_GList on the nicks, writing. */
    method WriteNicks(ns: seq<Nick>, ghost tail: string)
      modifies this`data
      ensures data + tail == old(data) + PutNicks(ns, 0, tail)
    {
      hide PutNick;
      var i := 0;
      while i < |ns|
        invariant i <= |ns| && data + PutNicks(ns, i, tail) == old(data) + PutNicks(ns, 0, tail)
      {
        WriteNick(1, Element(i), ns[i], PutNicks(ns, i + 1, tail));
        i := i + 1;
      }
    }

    /** marshall_GList on a list of masks, writing. */
    method WriteMaskList(name: string, es: seq<ListEntry>, ghost tail: string)
      modifies this`data
      ensures data + tail == old(data) + PutMaskList(name, es, tail)
    {
      hide Put;
      Set(2, name, None, PutInt(3, "count", |es|, PutEntries(es, 0, tail)));
      WriteInt(3, "count", |es|, PutEntries(es, 0, tail));
      var i := 0;
      ghost var all := data + PutEntries(es, 0, tail);
      while i < |es|
        invariant i <= |es| && data + PutEntries(es, i, tail) == all
      {
        ghost var t3 := PutEntries(es, i + 1, tail);
        ghost var t2 := Put(4, "by", es[i].setBy, t3);
        ghost var t1 := Put(4, "hostmask", Some(es[i].hostmask), t2);
        Set(3, Element(i), None, PutTime(4, "time", es[i].timeSet, t1));
        Set(4, "time", Some(DecInt(es[i].timeSet)), t1);
        Set(4, "hostmask", Some(es[i].hostmask), t2);
        Set(4, "by", es[i].setBy, t3);
        i := i + 1;
      }
    }

    /** The loop over the mode letters in marshall_channel_state, writing. */
    method WriteSlots(d: ChanData, ghost tail: string)
      modifies this`data
      ensures data + tail == old(data) + PutSlots(d, 0, tail)
    {
      hide Put, PutMaskList;
      var c := 0;
      while c < 255
        invariant c <= 255 && data + PutSlots(d, c, tail) == old(data) + PutSlots(d, 0, tail)
      {
        ghost var t2 := PutSlots(d, c + 1, tail);
        WriteMaskList(ListName(c), Entries(d, c as char), Put(2, OptionName(c), OptionOf(d.options, c as char), t2));
        Set(2, OptionName(c), OptionOf(d.options, c as char), t2);
        c := c + 1;
      }
    }

    /** The loop over the members, writing. */
    method WriteMembers(people: seq<Nick>, ms: seq<Member>, ghost tail: string)
      requires forall k :: 0 <= k < |ms| ==> ms[k].who < |people|
      modifies this`data
      ensures data + tail == old(data) + PutMembers(people, ms, 0, tail)
    {
      hide Put;
      var j := 0;
      while j < |ms|
        invariant j <= |ms| && data + PutMembers(people, ms, j, tail) == old(data) + PutMembers(people, ms, 0, tail)
      {
        ghost var t3 := PutMembers(people, ms, j + 1, tail);
        ghost var t2 := PutModes(4, "modes", ms[j].modes, t3);
        Set(3, ShortItem(j), None, Put(4, "nick", Some(people[ms[j].who].nick), t2));
        Set(4, "nick", Some(people[ms[j].who].nick), t2);
        Set(4, "modes", ModesToString(ms[j].modes), t3);
        j := j + 1;
      }
    }

    method WriteBool(level: nat, name: string, b: bool, ghost tail: string)
      modifies this`data
      ensures data + tail == old(data) + PutBool(level, name, b, tail)
    {
      hide Put;
      Set(level, name, Some(if b then "true" else "false"), tail);
    }

    method WriteTopic(d: ChanData, ghost tail: string)
      modifies this`data
      ensures data + tail == old(data) + PutTopic(d, tail)
    {
      hide Put;
      ghost var t3 := PutTime(2, "topic_set_time", d.topicSetTime, tail);
      ghost var t2 := Put(2, "topic_set_by", d.topicSetBy, t3);
      ghost var t1 := Put(2, "topic", d.topic, t2);
      Set(2, "name", Some(d.name), t1);
      Set(2, "topic", d.topic, t2);
      Set(2, "topic_set_by", d.topicSetBy, t3);
      Set(2, "topic_set_time", Some(DecInt(d.topicSetTime)), tail);
    }

    /** marshall_channel_state, writing. */
    method WriteChan(people: seq<Nick>, name: string, c: Chan, ghost tail: string)
      requires forall k :: 0 <= k < |c.members| ==> c.members[k].who < |people|
      modifies this`data
      ensures data + tail == old(data) + PutChan(people, name, c, tail)
    {
      hide Put, PutBool, PutSlots, PutTopic, PutMembers, PutInt;
      var d := c.data;
      ghost var m := PutMembers(people, c.members, 0, tail);
      ghost var t9 := Put(2, "nicks", None, PutInt(3, "count", |c.members|, m));
      ghost var t8 := PutSlots(d, 0, t9);
      ghost var t7 := PutTopic(d, t8);
      ghost var t6 := PutBool(2, "exceptlist_started", d.exceptlistStarted, t7);
      ghost var t5 := PutBool(2, "invitelist_started", d.invitelistStarted, t6);
      ghost var t4 := PutBool(2, "banlist_started", d.banlistStarted, t5);
      ghost var t3 := PutBool(2, "namreply_started", d.namreplyStarted, t4);
      ghost var t2 := PutModes(2, "modes", d.modes, t3);
      Set(1, name, None, PutChar(2, "mode", d.mode, t2));
      Set(2, "mode", Some(if d.mode == '\0' then "" else [d.mode]), t2);
      Set(2, "modes", ModesToString(d.modes), t3);
      WriteBool(2, "namreply_started", d.namreplyStarted, t4);
      WriteBool(2, "banlist_started", d.banlistStarted, t5);
      WriteBool(2, "invitelist_started", d.invitelistStarted, t6);
      WriteBool(2, "exceptlist_started", d.exceptlistStarted, t7);
      WriteTopic(d, t8);
      WriteSlots(d, t9);
      Set(2, "nicks", None, PutInt(3, "count", |c.members|, m));
      WriteInt(3, "count", |c.members|, m);
      WriteMembers(people, c.members, tail);
    }

    /** marshall_network_state, writing into an empty file. */
    method WriteNet(s: Net)
      requires Sound(s) && data == ""
      modifies this`data
      ensures data == PutNet(s)
    {
      hide Sound, Put, PutNick, PutNicks, PutInt, PutChan;
      SoundFacts(s);
      var people, cs := s.people, s.channels;
      ghost var t6 := PutChans(people, cs, 0, "");
      ghost var t5 := PutInt(1, "count", |cs|, t6);
      ghost var t4 := Put(0, "channels", None, t5);
      ghost var t3 := PutNicks(people[1..], 0, t4);
      ghost var t2 := PutInt(1, "count", |people| - 1, t3);
      WriteNick(0, "me", people[0], Put(0, "nicks", None, t2));
      Set(0, "nicks", None, t2);
      WriteInt(1, "count", |people| - 1, t3);
      WriteNicks(people[1..], t4);
      Set(0, "channels", None, t5);
      WriteInt(1, "count", |cs|, t6);
      var i := 0;
      while i < |cs|
        invariant i <= |cs| && data + PutChans(people, cs, i, "") == PutNet(s)
      {
        WriteChan(people, Element(i), cs[i], PutChans(people, cs, i + 1, ""));
        i := i + 1;
      }
      assert data + "" == data;
    }

    // --------------------------------------------------------------------- reading

    /** marshall_get. */
    method Fetch(level: nat, name: string) returns (v: Option<Option<string>>)
      modifies this`pos
      ensures Reads(Get(level, name, old(Rest())), v, Rest())
    {
      var s := Rest();
      if s == "" { return None; }
      var line := Cut(s);
      pos := pos + LineEnd(s);
      assert Rest() == s[LineEnd(s)..];
      var head := Tabs(level) + name;
      if !(head <= line) { return None; }
      if |line| == |head| || line[|head|] != ':' { return Some(None); }
      if |line| == |head| + 1 { return None; }
      return Some(Some(line[|head| + 2..]));
    }

    method FetchStruct(level: nat, name: string) returns (v: Option<()>)
      modifies this`pos
      ensures Reads(GetStruct(level, name, old(Rest())), v, Rest())
    {
      hide Get;
      var f := Fetch(level, name);
      return if f == Some(None) then Some(()) else None;
    }

    method FetchBool(level: nat, name: string) returns (v: Option<bool>)
      modifies this`pos
      ensures Reads(GetBool(level, name, old(Rest())), v, Rest())
    {
      hide Get;
      var f := Fetch(level, name);
      return if f == Some(Some("true")) then Some(true) else if f == Some(Some("false")) then Some(false) else None;
    }

    method FetchInt(level: nat, name: string) returns (v: Option<int>)
      modifies this`pos
      ensures Reads(GetInt(level, name, old(Rest())), v, Rest())
    {
      hide Get;
      var f := Fetch(level, name);
      return if f.None? || f.value.None? then None else Some(Atoi(f.value.value));
    }

    method FetchTime(level: nat, name: string) returns (v: Option<int>)
      modifies this`pos
      ensures Reads(GetTime(level, name, old(Rest())), v, Rest())
    {
      hide Get;
      var f := Fetch(level, name);
      return if f.None? || f.value.None? then None else Some(StrtolAuto(f.value.value));
    }

    method FetchModes(level: nat, name: string) returns (v: Option<set<char>>)
      modifies this`pos
      ensures Reads(GetModes(level, name, old(Rest())), v, Rest())
    {
      hide Get;
      var f := Fetch(level, name);
      return if f.None? then None else Some(StringModes(f.value));
    }

    method FetchChar(level: nat, name: string) returns (v: Option<char>)
      modifies this`pos
      ensures Reads(GetChar(level, name, old(Rest())), v, Rest())
    {
      hide Get;
      var f := Fetch(level, name);
      return if f.None? || f.value.None? then None else Some(if f.value.value == "" then '\0' else f.value.value[0]);
    }

    /** marshall_network_nick, reading. */
    method ReadNick(level: nat, name: string, hops: int) returns (v: Option<Nick>)
      modifies this`pos
      ensures Reads(GetNick(level, name, hops, old(Rest())), v, Rest())
    {
      hide Get, GetBool, GetModes, GetStruct;
      var k := level + 1;
      var f := FetchStruct(level, name);
      if f.None? { return None; }
      var query := FetchBool(k, "query");
      if query.None? { return None; }
      var modes := FetchModes(k, "modes");
      if modes.None? { return None; }
      var nick := Fetch(k, "nick");
      if nick.None? { return None; }
      var fullname := Fetch(k, "fullname");
      if fullname.None? { return None; }
      var username := Fetch(k, "username");
      if username.None? { return None; }
      var hostname := Fetch(k, "hostname");
      if hostname.None? { return None; }
      var hostmask := Fetch(k, "hostmask");
      if hostmask.None? { return None; }
      var server := Fetch(k, "server");
      if server.None? || nick.value.None? { return None; }
      return Some(Nick(query.value, nick.value.value, fullname.value, username.value, hostname.value, hostmask.value,
                       modes.value, server.value, hops));
    }

    /** marshall_GList on the nicks, reading. */
    method ReadNicks(n: int, hops: nat -> int) returns (v: Option<seq<Nick>>)
      modifies this`pos
      ensures Reads(GetNicks(n, 0, hops, old(Rest())), v, Rest())
    {
      hide GetNick;
      var i, xs := 0, [];
      BehindNothing(GetNicks(n, 0, hops, Rest()));
      while i < n
        invariant Behind(xs, GetNicks(n, i, hops, Rest())) == GetNicks(n, 0, hops, old(Rest()))
        decreases n - i
      {
        ghost var s := Rest();
        var x := ReadNick(1, Element(i), hops(i));
        NicksStep(n, i, hops, xs, s, if x.Some? then x.value else NewNick(""), Rest());
        if x.None? { return None; }
        xs, i := xs + [x.value], i + 1;
      }
      assert xs + [] == xs;
      return Some(xs);
    }

    method ReadEntry(name: string) returns (v: Option<ListEntry>)
      modifies this`pos
      ensures Reads(GetEntry(name, old(Rest())), v, Rest())
    {
      hide Get, GetTime, GetStruct;
      var f := FetchStruct(3, name);
      if f.None? { return None; }
      var time := FetchTime(4, "time");
      if time.None? { return None; }
      var hostmask := Fetch(4, "hostmask");
      if hostmask.None? { return None; }
      var setBy := Fetch(4, "by");
      if setBy.None? || hostmask.value.None? { return None; }
      return Some(ListEntry(hostmask.value.value, setBy.value, time.value));
    }

    /** marshall_GList on a list of masks, reading. */
    method ReadMaskList(name: string) returns (v: Option<seq<ListEntry>>)
      modifies this`pos
      ensures Reads(GetMaskList(name, old(Rest())), v, Rest())
    {
      hide GetEntry, GetInt, GetStruct;
      var f := FetchStruct(2, name);
      if f.None? { return None; }
      var n := FetchInt(3, "count");
      if n.None? { return None; }
      ghost var start := Rest();
      var i, xs := 0, [];
      BehindNothing(GetEntries(n.value, 0, start));
      while i < n.value
        invariant Behind(xs, GetEntries(n.value, i, Rest())) == GetEntries(n.value, 0, start)
        decreases n.value - i
      {
        ghost var s := Rest();
        var x := ReadEntry(Element(i));
        EntriesStep(n.value, i, xs, s, if x.Some? then x.value else ListEntry("", None, 0), Rest());
        if x.None? { return None; }
        xs, i := xs + [x.value], i + 1;
      }
      assert xs + [] == xs;
      return Some(xs);
    }

    /** The loop over the mode letters, reading. */
    method ReadSlots() returns (v: Option<Slots>)
      modifies this`pos
      ensures Reads(GetSlots(0, old(Rest())), v, Rest())
    {
      hide GetMaskList, Get;
      var c, lists, options := 0, map[], map[];
      assert Over(lists, options, GetSlots(0, Rest())) == GetSlots(0, Rest()) by { OverNothing(GetSlots(0, Rest())); }
      while c < 255
        invariant c <= 255 && (forall m :: m in lists || m in options ==> m as int < c)
        invariant Over(lists, options, GetSlots(c, Rest())) == GetSlots(0, old(Rest()))
      {
        ghost var s := Rest();
        var es := ReadMaskList(ListName(c));
        if es.None? { return None; }
        ghost var t := Rest();
        var o := Fetch(2, OptionName(c));
        if o.None? { return None; }
        var m := c as char;
        SlotStep(c, lists, options, s, es.value, t, o.value, Rest());
        if es.value != [] { lists := lists[m := es.value]; }
        if o.value.Some? { options := options[m := o.value.value]; }
        c := c + 1;
      }
      OverNothing(Got(Slots(lists, options), Rest()));
      assert lists + map[] == lists && options + map[] == options;
      return Some(Slots(lists, options));
    }

    /** The loop over the members, reading. */
    method ReadMembers(s: Net, c: nat, n: int) returns (v: Option<Net>)
      requires Sound(s) && c < |s.channels|
      modifies this`pos
      ensures Reads(GetMembers(s, c, n, 0, old(Rest())), v, Rest())
    {
      hide Sound, Get, GetModes, GetStruct, PullMember, OnePrefix;
      var r, j := s, 0;
      while j < n
        invariant Sound(r) && c < |r.channels| && GetMembers(r, c, n, j, Rest()) == GetMembers(s, c, n, 0, old(Rest()))
        decreases n - j
      {
        var f := FetchStruct(3, ShortItem(j));
        if f.None? { return None; }
        var nick := Fetch(4, "nick");
        if nick.None? { return None; }
        var modes := FetchModes(4, "modes");
        if modes.None? || nick.value.None? || !OnePrefix(r.info, nick.value.value) { return None; }
        r, j := PullMember(r, c, nick.value.value, modes.value), j + 1;
      }
      return Some(r);
    }

    method ReadFlagged() returns (v: Option<Flagged>)
      modifies this`pos
      ensures Reads(GetFlagged(old(Rest())), v, Rest())
    {
      hide GetChar, GetModes, GetBool;
      var mode := FetchChar(2, "mode");
      if mode.None? { return None; }
      var modes := FetchModes(2, "modes");
      if modes.None? { return None; }
      var names := FetchBool(2, "namreply_started");
      if names.None? { return None; }
      var bans := FetchBool(2, "banlist_started");
      if bans.None? { return None; }
      var invites := FetchBool(2, "invitelist_started");
      if invites.None? { return None; }
      var excepts := FetchBool(2, "exceptlist_started");
      if excepts.None? { return None; }
      return Some(Flagged(mode.value, modes.value, names.value, bans.value, invites.value, excepts.value));
    }

    method ReadTopic() returns (v: Option<Topic>)
      modifies this`pos
      ensures Reads(GetTopic(old(Rest())), v, Rest())
    {
      hide Get, GetTime;
      var name := Fetch(2, "name");
      if name.None? { return None; }
      var topic := Fetch(2, "topic");
      if topic.None? { return None; }
      var setBy := Fetch(2, "topic_set_by");
      if setBy.None? { return None; }
      var time := FetchTime(2, "topic_set_time");
      if time.None? || name.value.None? { return None; }
      return Some(Topic(name.value.value, topic.value, setBy.value, time.value));
    }

    /** marshall_channel_state, reading. */
    method ReadChan(s: Net, name: string, junk: Junk) returns (v: Option<Net>)
      requires Sound(s)
      modifies this`pos
      ensures Reads(GetChan(s, name, junk, old(Rest())), v, Rest())
    {
      hide Sound, GetStruct, GetFlagged, GetTopic, GetSlots, GetInt, GetMembers;
      var f := FetchStruct(1, name);
      if f.None? { return None; }
      var flags := ReadFlagged();
      if flags.None? { return None; }
      var topic := ReadTopic();
      if topic.None? { return None; }
      var slots := ReadSlots();
      if slots.None? { return None; }
      var d := ChanData(topic.value.name, topic.value.topic, topic.value.setTime, topic.value.setBy,
                        flags.value.mode, flags.value.modes, junk.creationTime,
                        flags.value.namreply, flags.value.banlist, flags.value.invitelist, flags.value.exceptlist,
                        junk.modeReceived, slots.value.lists, junk.present, slots.value.options);
      f := FetchStruct(2, "nicks");
      if f.None? { return None; }
      var n := FetchInt(3, "count");
      if n.None? { return None; }
      EmptyChanSound(s, d);
      v := ReadMembers(s.(channels := s.channels + [Chan(d, [])]), |s.channels|, n.value);
    }

    /** marshall_network_state, reading. */
    method ReadNet(g: Garbage) returns (v: Option<Net>)
      modifies this`pos
      ensures Reads(GetNet(g, old(Rest())), v, Rest())
    {
      hide Sound, GetStruct, GetNick, GetNicks, GetInt, GetChan;
      var me := ReadNick(0, "me", 0);
      if me.None? { return None; }
      var f := FetchStruct(0, "nicks");
      if f.None? { return None; }
      var n := FetchInt(1, "count");
      if n.None? { return None; }
      var nicks := ReadNicks(n.value, g.hops);
      if nicks.None? { return None; }
      f := FetchStruct(0, "channels");
      if f.None? { return None; }
      var m := FetchInt(1, "count");
      if m.None? || !me.value.query { return None; }
      var s := Net([], [me.value] + nicks.value, FRESH, false);
      assert Sound(s) by { StartsSound(s); }
      ghost var start, first := Rest(), s;
      var i := 0;
      while i < m.value
        invariant Sound(s) && GetChans(s, m.value, i, g.chans, Rest()) == GetChans(first, m.value, 0, g.chans, start)
        decreases m.value - i
      {
        var c := ReadChan(s, Element(i), g.chans(i));
        if c.None? { return None; }
        s, i := c.value, i + 1;
      }
      return Some(s);
    }
  }
}
