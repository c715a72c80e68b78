/** libirc/linestack.c: an append-only log of lines with an index and a snapshot of the state
    every thousand lines. */
module Linestack {
  import opened Base
  import opened Casemap
  import opened Line
  import opened State
  import opened Handlers
  import opened Views
  import opened Marshal
  import opened StateFile
  import opened LogFiles

  // ------------------------------------------------------------------- what is stored

  datatype Direction = FromServer | ToServer

  const WORDS := ["NICK", "JOIN", "QUIT", "PART", "PRIVMSG", "NOTICE", "KICK", "MODE", "TOPIC"]
  const NUMERICS := ["353", "366", "331", "333", "332", "324", "329"]

  predicate IsTalk(c: string) { AsciiEq(c, "PRIVMSG") || AsciiEq(c, "NOTICE") }

  predicate IsAction(t: string) { |t| >= 7 && AsciiEq(t[..7], "\U{1}ACTION") }

  /** Messages that are not kept: CTCP other than ACTION. */
  predicate IsCtcp(l: Line)
    requires |l.args| > 0
  {
    IsTalk(l.args[0]) && |l.args| > 2 && l.args[2] != "" && l.args[2][0] == '\U{1}' && !IsAction(l.args[2])
  }

  predicate InWords(c: string) { exists k :: 0 <= k < |WORDS| && AsciiEq(WORDS[k], c) }

  /** What linestack_insert_line keeps. */
  predicate Needed(l: Line, dir: Direction) {
    && |l.args| > 0
    && (dir == ToServer ==> IsTalk(l.args[0]))
    && !IsCtcp(l)
    && (InWords(l.args[0]) || l.args[0] in NUMERICS)
  }

  lemma WordIsStored(c: string)
    requires InWords(c)
    ensures IsStored(CommandNamed(c))
  {
    var k :| 0 <= k < |WORDS| && AsciiEq(WORDS[k], c);
    hide AsciiEq;
    if WORDS[k] == "NOTICE" {
      WordIsNoNumeric(c);
    }
  }

  lemma WordIsNoNumeric(c: string)
    requires AsciiEq("NOTICE", c)
    ensures c != "" && !IsDigit(c[0])
  {}

  /** Everything stored is a line whose effect a replay reproduces. */
  lemma NeededIsStored(l: Line, dir: Direction)
    requires Needed(l, dir)
    ensures IsStored(CommandOf(l))
  {
    hide AsciiEq;
    if InWords(l.args[0]) {
      WordIsStored(l.args[0]);
    }
  }

  // --------------------------------------------------------------------- traversal

  /** What a handler makes of one entry: its new state, and whether to go on. */
  type Handler<!S> = (S, Line, int) -> (S, bool)

  predicate Recoverable(log: seq<Entry>) { Times(log) && forall i :: 0 <= i < |log| ==> Storable(log[i].line) }

  /** Every entry is one whose effect a replay reproduces. */
  predicate AllStored(log: seq<Entry>)
    requires Recoverable(log)
  {
    forall i :: 0 <= i < |log| ==> IsStored(CommandOf(Reread(log[i].line)))
  }

  /** linestack_traverse over the entries `i` to `end`, as long as the handler answers TRUE; a
      record past the end cannot be read. */
  function Visit<S>(log: seq<Entry>, i: nat, end: nat, h: Handler<S>, s: S): (r: (S, bool))
    requires Recoverable(log)
    decreases end - i
  {
    if i >= end then (s, true)
    else if i >= |log| then (s, false)
    else
      var (s1, ok) := h(s, Reread(log[i].line), log[i].time);
      if ok then Visit(log, i + 1, end, h, s1) else (s1, false)
  }

  /** The entries as they are read back. */
  function AsRead(log: seq<Entry>): (r: seq<Entry>)
    requires Recoverable(log)
    ensures |r| == |log| && forall i :: 0 <= i < |r| ==> r[i] == Entry(Reread(log[i].line), log[i].time)
  {
    seq(|log|, i requires 0 <= i < |log| => Entry(Reread(log[i].line), log[i].time))
  }

  /** A handler that keeps what it is shown sees exactly the entries from `i` to `end`, in order. */
  lemma {:induction false} VisitShowsRange(log: seq<Entry>, i: nat, end: nat, seen: seq<Entry>)
    requires Recoverable(log) && i <= end <= |log|
    ensures Visit(log, i, end, (a: seq<Entry>, l: Line, t: int) => (a + [Entry(l, t)], true), seen)
         == (seen + AsRead(log)[i..end], true)
    decreases end - i
  {
    if i < end {
      var e := AsRead(log)[i];
      VisitShowsRange(log, i + 1, end, seen + [e]);
      assert seen + [e] + AsRead(log)[i + 1..end] == seen + AsRead(log)[i..end];
    } else {
      assert seen + AsRead(log)[i..end] == seen;
    }
  }

  /** traverse_object_handler: only lines about an object, or a list with the object in it. */
  predicate Concerns(l: Line, target: string) {
    |l.args| >= 2 && if ',' in l.args[1] then target in StrSplit(l.args[1], ',') else l.args[1] == target
  }

  function OnlyAbout<S>(target: string, h: Handler<S>): (r: Handler<S>) {
    (s, l, t) => if Concerns(l, target) then h(s, l, t) else (s, true)
  }

  function About(es: seq<Entry>, target: string): (r: seq<Entry>) {
    if es == [] then [] else (if Concerns(es[0].line, target) then [es[0]] else []) + About(es[1..], target)
  }

  /** linestack_traverse_object shows the entries about an object, and only those, in order. */
  lemma {:induction false} VisitObjectShows(log: seq<Entry>, target: string, i: nat, end: nat, seen: seq<Entry>)
    requires Recoverable(log) && i <= end <= |log|
    ensures Visit(log, i, end, OnlyAbout(target, (a: seq<Entry>, l: Line, t: int) => (a + [Entry(l, t)], true)), seen)
         == (seen + About(AsRead(log)[i..end], target), true)
    decreases end - i
  {
    hide Concerns;
    var es := AsRead(log)[i..end];
    if i < end {
      assert es[1..] == AsRead(log)[i + 1..end];
      var e := es[0];
      if Concerns(e.line, target) {
        VisitObjectShows(log, target, i + 1, end, seen + [e]);
        assert seen + [e] + About(es[1..], target) == seen + ([e] + About(es[1..], target));
      } else {
        VisitObjectShows(log, target, i + 1, end, seen);
        assert [] + About(es[1..], target) == About(es[1..], target);
      }
    } else {
      assert es == [] && seen + [] == seen;
    }
  }

  // ------------------------------------------------------------------------ replay

  /** replay_line. */
  function Apply(s: Net, l: Line, now: int): (r: Net) {
    if Sound(s) && Accepts(s, l) then Step(s, l, now) else s
  }

  function Replayer(now: int): (h: Handler<Net>) { (s: Net, l: Line, t: int) => (Apply(s, l, now), true) }

  /** linestack_get_state: the snapshot a marker's record names, and the lines after it. */
  function Rebuild(snaps: seq<Net>, log: seq<Entry>, m: nat, g: Garbage, now: int): (r: Option<Net>)
    requires Recoverable(log) && LastSnapshot(m) / INTERVAL < |snaps| && Sound(snaps[LastSnapshot(m) / INTERVAL])
  {
    var k := LastSnapshot(m);
    var base := GetNet(g, PutNet(snaps[k / INTERVAL]));
    if base.Fail? then None else Some(Visit(log, k, m, Replayer(now), base.value).0)
  }

  /** The snapshot in force after `count` lines. */
  function LastSnapshot(count: nat): (k: nat)
    ensures k <= count <= k + INTERVAL && k % INTERVAL == 0
  {
    if count == 0 then 0 else SnapshotOf(count - 1)
  }

  /** The three fields of a record, decoded. */
  lemma RecordFields(o: nat, t: int, k: nat)
    requires o < 2 * TWO63 && k < 2 * TWO63 && IsTime(t)
    ensures var r := Record(o, t, k); ReadU64(r[0..8]) == o && ReadS64(r[8..16]) == t && ReadU64(r[16..24]) == k
  {
    U64RoundTrip(o, t);
    U64RoundTrip(k, t);
    hide ReadU64, ReadS64, U64, S64;
    var r := Record(o, t, k);
    assert r[0..8] == U64(o);
    assert r[8..16] == S64(t);
    assert r[16..24] == U64(k);
  }

  lemma SliceOfSlice<T>(b: seq<T>, i: nat, j: nat, x: nat, y: nat)
    requires i <= j <= |b| && x <= y <= j - i
    ensures b[i + x..i + y] == b[i..j][x..y]
  {
    var l, r := b[i + x..i + y], b[i..j][x..y];
    assert |l| == |r|;
    assert forall k :: 0 <= k < |l| ==> l[k] == r[k];
    assert l == r;
  }

  /** What ReadEntry and GetState find in record `i`. */
  lemma RecordParts(log: seq<Entry>, i: nat)
    requires Times(log) && i < |log| && |LinesText(log)| < TWO63 && |log| < TWO63
    ensures var b := IndexBytes(log);
            && ReadU64(b[i * RECORD..i * RECORD + 8]) == Offset(log, i)
            && ReadS64(b[i * RECORD + 8..i * RECORD + 16]) == log[i].time
            && ReadU64(b[i * RECORD + 16..i * RECORD + 24]) == SnapshotOf(i)
  {
    hide IndexBytes, LinesText, ReadU64, ReadS64, Record, SnapshotOf, Offset, PrintNl;
    var rest := TextAt(log, i);
    RecordIs(log, i);
    var b, at := IndexBytes(log), i * RECORD;
    RecordFields(Offset(log, i), log[i].time, SnapshotOf(i));
    SliceOfSlice(b, at, at + RECORD, 0, 8);
    SliceOfSlice(b, at, at + RECORD, 8, 16);
    SliceOfSlice(b, at, at + RECORD, 16, 24);
  }

  lemma LastSnapshotKept(m: nat, count: nat)
    requires 1 <= m <= count
    ensures SnapshotOf(m - 1) == LastSnapshot(m) <= LastSnapshot(count)
    ensures LastSnapshot(m) / INTERVAL <= LastSnapshot(count) / INTERVAL
  {}

  /** When the next line brings a snapshot. */
  lemma SnapshotDue(n: nat)
    ensures LastSnapshot(n + 1) == SnapshotOf(n)
    ensures n >= LastSnapshot(n) + INTERVAL <==> n > 0 && n % INTERVAL == 0
    ensures n >= LastSnapshot(n) + INTERVAL ==> SnapshotOf(n) == n && n == INTERVAL * (LastSnapshot(n) / INTERVAL + 1)
    ensures n < LastSnapshot(n) + INTERVAL ==> SnapshotOf(n) == LastSnapshot(n)
  {}

  /** The files in the state directory are the snapshots. */
  ghost predicate Saved(states: map<nat, string>, snaps: seq<Net>) {
    forall j :: 0 <= j < |snaps| ==>
      Sound(snaps[j]) && INTERVAL * j in states && states[INTERVAL * j] == PutNet(snaps[j])
  }

  lemma SavedSnoc(states: map<nat, string>, snaps: seq<Net>, state: Net)
    requires Saved(states, snaps) && Sound(state)
    ensures Saved(states[INTERVAL * |snaps| := PutNet(state)], snaps + [state])
  {
    hide Sound, PutNet;
  }

  lemma SavedAt(states: map<nat, string>, snaps: seq<Net>, k: nat)
    requires Saved(states, snaps) && k % INTERVAL == 0 && k / INTERVAL < |snaps|
    ensures Sound(snaps[k / INTERVAL]) && k in states && states[k] == PutNet(snaps[k / INTERVAL])
  {
    assert k == INTERVAL * (k / INTERVAL);
  }

  lemma StoredSnoc(log: seq<Entry>, l: Line, dir: Direction, now: int)
    requires Recoverable(log) && AllStored(log) && Needed(l, dir) && Storable(l) && IsTime(now)
    ensures Recoverable(log + [Entry(l, now)]) && AllStored(log + [Entry(l, now)])
  {
    hide Storable, Needed, IsStored;
    NeededIsStored(l, dir);
    hide CommandNamed;
    StorableHasArgs(l);
  }

  lemma StorableHasArgs(l: Line)
    requires Storable(l)
    ensures |l.args| >= 1
  {}

  /** The two files, the state directory and the counters agree on the log and its snapshots. */
  ghost predicate Consistent(log: seq<Entry>, snaps: seq<Net>, lines: string, index: seq<Byte>,
                             states: map<nat, string>, count: nat, last: nat) {
    && Recoverable(log) && AllStored(log) && count == |log| && |LinesText(log)| < TWO63 && count < TWO63
    && lines == LinesText(log) && index == IndexBytes(log)
    && last == LastSnapshot(count) && |snaps| == last / INTERVAL + 1 && Saved(states, snaps)
  }

  lemma ConsistentLog(log: seq<Entry>, snaps: seq<Net>, lines: string, index: seq<Byte>, states: map<nat, string>,
                      count: nat, last: nat)
    requires Consistent(log, snaps, lines, index, states, count, last)
    ensures Recoverable(log) && count == |log|
  {}

  // --------------------------------------------------------------------- the class

  class LinestackContext {
    var lines: File<char>
    var index: File<Byte>
    var states: map<nat, string>
    var count: nat
    var lastLineWithState: nat
    ghost var log: seq<Entry>
    ghost var snaps: seq<Net>

    /** What the files say; the cursors may be anywhere. */
    ghost predicate Holds()
      reads this
    {
      Consistent(log, snaps, lines.data, index.data, states, count, lastLineWithState)
    }

    ghost predicate Valid()
      reads this
    {
      Holds() && lines.pos == |lines.data| && index.pos == |index.data|
    }

    /** create_linestack with truncation. */
    constructor (state: Net)
      requires Sound(state)
      ensures Valid() && log == [] && snaps == [state]
    {
      hide Sound, PutNet;
      var f := new SnapshotFile("");
      f.WriteNet(state);
      lines, index, count, lastLineWithState := File("", 0), File([], 0), 0, 0;
      states := map[0 := f.data];
      log, snaps := [], [state];
    }

    /** write_index_entry. */
    method WriteIndexEntry(offset: nat, time: int, state: nat)
      requires index.pos == |index.data| && IsTime(time)
      modifies this`index
      ensures index.data == old(index.data) + Record(offset, time, state) && index.pos == |index.data|
    {
      index := Write(index, U64(offset));
      index := Write(index, S64(time));
      index := Write(index, U64(state));
    }

    /** file_insert_state. */
    method InsertState(state: Net)
      requires Saved(states, snaps) && Sound(state) && count == INTERVAL * |snaps|
      modifies this`lastLineWithState, this`states, this`snaps
      ensures lastLineWithState == count && snaps == old(snaps) + [state] && Saved(states, snaps)
    {
      hide Sound, PutNet, Saved;
      SavedSnoc(states, snaps, state);
      var f := new SnapshotFile("");
      f.WriteNet(state);
      lastLineWithState := count;
      states := states[count := f.data];
      snaps := snaps + [state];
    }

    /** linestack_insert_line: a line that is needed is appended; before every thousandth the
        state is saved. Nothing else changes. */
    method Insert(l: Line, dir: Direction, state: Net, now: int)
      requires Valid() && Sound(state) && IsTime(now)
      requires Needed(l, dir) ==> Storable(l) && |LinesText(log)| + |PrintNl(l)| < TWO63 && count + 1 < TWO63
      modifies this
      ensures Valid()
      ensures log == if Needed(l, dir) then old(log) + [Entry(l, now)] else old(log)
      ensures snaps ==
              if Needed(l, dir) && old(count > 0 && count % 1000 == 0) then old(snaps) + [state] else old(snaps)
    {
      hide Sound, PutNet, Storable, PrintNl, Needed, Record, Saved, SnapshotOf, LastSnapshot, LinesText, IndexBytes;
      hide IsTime, AllStored;
      if !Needed(l, dir) { return; }
      LogSnoc(log, Entry(l, now));
      StoredSnoc(log, l, dir, now);
      SnapshotDue(count);
      if count >= lastLineWithState + INTERVAL {
        InsertState(state);
      }
      WriteIndexEntry(lines.pos, now, lastLineWithState);
      lines := Write(lines, PrintNl(l));
      count := count + 1;
      log := log + [Entry(l, now)];
    }

    /** linestack_read_entry. */
    method ReadEntry(i: nat) returns (line: Option<Line>, time: int)
      requires Holds()
      modifies this`lines, this`index
      ensures Holds() && lines.data == old(lines.data) && index.data == old(index.data)
      ensures i < count ==> line == Some(Reread(log[i].line)) && time == log[i].time
      ensures i >= count ==> line == None
    {
      hide Sound, PutNet, Parse, ReadRaw, PrintNl, Storable, Saved, SnapshotOf, LastSnapshot, LinesText, IndexBytes;
      hide IsTime;
      hide ReadU64, ReadS64;
      index := index.(pos := i * RECORD);
      var offset := ReadChunk(index, 8);
      index := index.(pos := index.pos + 8);
      var stamp := ReadChunk(index, 8);
      if offset.None? || stamp.None? { return None, 0; }
      RecordParts(log, i);
      ghost var rest := TextAt(log, i);
      time := ReadS64(stamp.value);
      lines := lines.(pos := ReadU64(offset.value));
      ReadBack(lines, log[i].line, rest);
      var raw := ReadRaw(lines);
      line := Parse(raw.value);
    }

    /** linestack_traverse. */
    method Traverse<S>(from: nat, to: Option<nat>, h: Handler<S>, init: S) returns (s: S, ok: bool)
      requires Valid()
      modifies this`lines, this`index
      ensures Valid()
      ensures (s, ok) == Visit(log, from, if to.Some? then to.value else count, h, init)
    {
      hide Consistent, Recoverable;
      ConsistentLog(log, snaps, lines.data, index.data, states, count, lastLineWithState);
      var i, end := from, if to.Some? then to.value else count;
      s, ok := init, true;
      while i < end && ok
        invariant Holds()
        invariant Visit(log, from, end, h, init) == if ok then Visit(log, i, end, h, s) else (s, false)
        decreases end - i, ok
      {
        var line, time := ReadEntry(i);
        if line.None? {
          ok := false;
        } else {
          var r := h(s, line.value, time);
          s, ok := r.0, r.1;
          i := i + 1;
        }
      }
      lines, index := AtEnd(lines), AtEnd(index);
    }

    /** The snapshot that the last record before a marker names. */
    method FindSnapshot(marker: nat) returns (k: Option<nat>)
      requires Valid() && marker >= 1
      modifies this`index
      ensures Valid()
      ensures k == if marker <= count then Some(LastSnapshot(marker)) else None
    {
      hide Sound, Saved, SnapshotOf, LastSnapshot, LinesText, IndexBytes, ReadU64, AllStored, Storable;
      index := index.(pos := (marker - 1) * RECORD + 16);
      var state := ReadChunk(index, 8);
      index := AtEnd(index);
      if state.None? { return None; }
      RecordParts(log, marker - 1);
      LastSnapshotKept(marker, count);
      return Some(ReadU64(state.value));
    }

    /** marshall_network_state on the snapshot of line `k`. */
    method LoadSnapshot(k: nat, g: Garbage) returns (base: Option<Net>)
      requires Valid() && k % INTERVAL == 0 && k / INTERVAL < |snaps|
      ensures Sound(snaps[k / INTERVAL])
      ensures var r := GetNet(g, PutNet(snaps[k / INTERVAL])); base == if r.Got? then Some(r.value) else None
    {
      hide Sound, PutNet, GetNet, Saved, LastSnapshot, LinesText, IndexBytes, AllStored, Recoverable;
      SavedAt(states, snaps, k);
      var f := new SnapshotFile(states[k]);
      assert f.Rest() == states[k];
      base := f.ReadNet(g);
    }

    /** linestack_get_state at a marker, or now. */
    method GetState(marker: Option<nat>, g: Garbage, now: int) returns (r: Option<Net>)
      requires Valid() && (marker.Some? ==> marker.value >= 1)
      modifies this`lines, this`index
      ensures Valid()
      ensures marker.Some? && marker.value > count ==> r == None
      ensures marker.None? || marker.value <= count ==>
                var m := if marker.Some? then marker.value else count;
                && LastSnapshot(m) / INTERVAL < |snaps| && Sound(snaps[LastSnapshot(m) / INTERVAL])
                && r == Rebuild(snaps, log, m, g, now)
    {
      hide Consistent, Sound, PutNet, GetNet, Visit, LastSnapshot;
      var k := lastLineWithState;
      if marker.Some? {
        var found := FindSnapshot(marker.value);
        if found.None? { return None; }
        k := found.value;
      }
      SnapshotThere(log, snaps, lines.data, index.data, states, count, lastLineWithState,
                    if marker.Some? then marker.value else count);
      var base := LoadSnapshot(k, g);
      if base.None? { return None; }
      var s, ok := Traverse(k, marker, Replayer(now), base.value);
      return Some(s);
    }
  }

  lemma SnapshotThere(log: seq<Entry>, snaps: seq<Net>, lines: string, index: seq<Byte>, states: map<nat, string>,
                      count: nat, last: nat,
                      m: nat)
    requires Consistent(log, snaps, lines, index, states, count, last) && m <= count && (m == 0 ==> count == 0)
    ensures Recoverable(log) && last == LastSnapshot(count)
    ensures LastSnapshot(m) / INTERVAL < |snaps| && LastSnapshot(m) % INTERVAL == 0
    ensures Sound(snaps[LastSnapshot(m) / INTERVAL])
  {
    hide Sound, LinesText, IndexBytes, AllStored, Recoverable;
    if m > 0 { LastSnapshotKept(m, count); }
    SavedAt(states, snaps, LastSnapshot(m));
  }
}
