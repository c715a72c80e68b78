/** A linestack in use: from its creation, through any run of inserts, traversals and rebuilds, the
    state rebuilt at a marker is the fold of the lines stored before it. */
module Session {
  import opened Base
  import opened Info
  import opened Line
  import opened State
  import opened Handlers
  import opened Views
  import opened Lists
  import opened Marshal
  import opened LogFiles
  import opened Linestack
  import opened Replay

  /** linestack_insert_line, linestack_traverse and linestack_get_state. */
  datatype Call =
    | Store(line: Line, dir: Direction, state: Net, now: int)
    | Look(from: nat, to: nat)
    | Rebuilt(marker: Option<nat>, g: Garbage, at: int)

  /** What a call answers; `count` is how many lines were stored when it did. */
  datatype Outcome =
    | Nothing
    | Saw(from: nat, to: nat, count: nat, entries: seq<Entry>, complete: bool)
    | State(marker: nat, count: nat, g: Garbage, state: Option<Net>)

  // ------------------------------------------------------------- what is asked of callers

  predicate Due(log: seq<Entry>) { |log| > 0 && |log| % INTERVAL == 0 }

  /** The log with one line more, which still replays. */
  ghost function Longer(s0: Net, log: seq<Entry>, l: Line, dir: Direction, now: int): (r: seq<Entry>)
    requires Replayable(s0, log) && Needed(l, dir) && Storable(l) && IsTime(now)
    requires Accepts(StateAfter(s0, log, |log|), Reread(l))
    ensures Replayable(s0, r) && r == log + [Entry(l, now)]
  {
    StoredGrows(s0, log, l, dir, now);
    log + [Entry(l, now)]
  }

  /** A line that may be stored next: it survives in the file, its handler gets through it, and where
      a snapshot is due the state passed along is one a rebuild can start from. */
  ghost predicate StoreOk(s0: Net, log: seq<Entry>, l: Line, dir: Direction, state: Net, now: int)
    requires Replayable(s0, log) && Needed(l, dir)
  {
    && Storable(l) && IsTime(now) && |LinesText(log)| + |PrintNl(l)| < TWO63 && |log| + 1 < TWO63
    && Accepts(StateAfter(s0, log, |log|), Reread(l))
    && (Due(log) ==> Writable(state) && SnapshotOk(s0, Longer(s0, log, l, dir, now), |log|, state))
  }

  ghost predicate CallsOk(s0: Net, log: seq<Entry>, calls: seq<Call>)
    requires Replayable(s0, log)
    decreases |calls|
  {
    if calls == [] then true
    else if calls[0].Store? && Needed(calls[0].line, calls[0].dir) then
      && Sound(calls[0].state) && StoreOk(s0, log, calls[0].line, calls[0].dir, calls[0].state, calls[0].now)
      && CallsOk(s0, Longer(s0, log, calls[0].line, calls[0].dir, calls[0].now), calls[1..])
    else PlainCallOk(calls[0]) && CallsOk(s0, log, calls[1..])
  }

  /** A call that stores nothing. */
  predicate PlainCallOk(c: Call) {
    match c
    case Store(_, _, state, now) => Sound(state) && IsTime(now)
    case Look(_, _) => true
    case Rebuilt(marker, _, _) => marker.Some? ==> marker.value >= 1
  }

  // ------------------------------------------------------------------- the log grows

  lemma EventsSnoc(log: seq<Entry>, e: Entry)
    requires Recoverable(log) && Recoverable(log + [e])
    ensures |e.line.args| >= 1
    ensures Events(log + [e], 0, |log| + 1) == Events(log, 0, |log|) + [Event(Reread(e.line), e.time)]
  {
    assert (log + [e])[|log|] == e;
    StorableHasArgs(e.line);
    hide Storable, PrintsColon;
  }

  lemma StoredGrows(s0: Net, log: seq<Entry>, l: Line, dir: Direction, now: int)
    requires Replayable(s0, log) && Needed(l, dir) && Storable(l) && IsTime(now)
    requires Accepts(StateAfter(s0, log, |log|), Reread(l))
    ensures Replayable(s0, log + [Entry(l, now)])
  {
    hide Sound, Storable, Needed, Accepts, Step, IsStored, Run, Accepted, Recoverable, AllStored, PrintsColon;
    StoredSnoc(log, l, dir, now);
    StorableHasArgs(l);
    var base, x, e := Default(s0), Events(log, 0, |log|), Event(Reread(l), now);
    EventsSnoc(log, Entry(l, now));
    RunSplit(base, x, [e]);
    OneAccepted(Run(base, x), [e], Reread(l));
  }

  lemma OneAccepted(s: Net, es: seq<Event>, l: Line)
    requires Sound(s) && |es| == 1 && es[0].line == l && Accepts(s, l)
    ensures Accepted(s, es)
  {
    hide Accepts, Step, Sound;
    assert es[1..] == [];
  }

  lemma PrefixStays(s0: Net, log: seq<Entry>, e: Entry, m: nat)
    requires Replayable(s0, log) && Replayable(s0, log + [e]) && m <= |log|
    ensures StateAfter(s0, log + [e], m) == StateAfter(s0, log, m)
  {
    hide Replayable, Run;
    ReplayableReads(s0, log);
    ReplayableReads(s0, log + [e]);
    hide Recoverable;
    assert Events(log + [e], 0, m) == Events(log, 0, m);
  }

  lemma SnapshotStays(s0: Net, log: seq<Entry>, e: Entry, k: nat, snap: Net)
    requires Replayable(s0, log) && Replayable(s0, log + [e]) && k <= |log| && SnapshotOk(s0, log, k, snap)
    ensures SnapshotOk(s0, log + [e], k, snap)
  {
    hide Replayable, StateAfter, Alike, Idempotent, Default;
    PrefixStays(s0, log, e, k);
    if k < |log| {
      PrefixStays(s0, log, e, k + 1);
      assert (log + [e])[k] == log[k];
    }
  }

  // ----------------------------------------------------------------------- invariant

  /** Every snapshot is one a rebuild can start from; the first is the state at the creation. */
  ghost predicate Good(s0: Net, log: seq<Entry>, snaps: seq<Net>) {
    && Replayable(s0, log) && |snaps| >= 1 && snaps[0] == s0
    && forall j :: 0 <= j < |snaps| ==> Writable(snaps[j]) && GoodSnapshot(s0, log, j, snaps[j])
  }

  ghost predicate GoodSnapshot(s0: Net, log: seq<Entry>, j: nat, snap: Net)
    requires Replayable(s0, log)
  {
    INTERVAL * j <= |log| && SnapshotOk(s0, log, INTERVAL * j, snap)
  }

  lemma GoodStarts(s0: Net)
    requires Writable(s0)
    ensures Replayable(s0, []) && Good(s0, [], [s0])
  {
    WritableSound(s0);
    hide Sound, Writable, Alike, Idempotent;
    assert Accepted(Default(s0), Events([], 0, 0));
    AlikeRefl(Default(s0));
  }

  /** What a storable line brings. */
  lemma StoreParts(s0: Net, log: seq<Entry>, l: Line, dir: Direction, state: Net, now: int)
    requires Replayable(s0, log) && Needed(l, dir) && StoreOk(s0, log, l, dir, state, now)
    ensures Storable(l) && IsTime(now) && |LinesText(log)| + |PrintNl(l)| < TWO63 && |log| + 1 < TWO63
    ensures Replayable(s0, log + [Entry(l, now)])
    ensures Due(log) ==> Writable(state) && SnapshotOk(s0, log + [Entry(l, now)], |log|, state)
  {
    hide Writable, SnapshotOk, Needed, Storable, Accepts, Replayable, LinesText, PrintNl;
    StoredGrows(s0, log, l, dir, now);
  }

  /** A line more, and a snapshot where one is due. */
  lemma GoodGrows(s0: Net, log: seq<Entry>, snaps: seq<Net>, e: Entry, state: Net)
    requires Good(s0, log, snaps) && Replayable(s0, log + [e])
    requires Due(log) ==> |log| == INTERVAL * |snaps| && Writable(state) && SnapshotOk(s0, log + [e], |log|, state)
    ensures Good(s0, log + [e], if Due(log) then snaps + [state] else snaps)
  {
    hide Writable, SnapshotOk, Replayable;
    forall j | 0 <= j < |snaps|
      ensures GoodSnapshot(s0, log + [e], j, snaps[j])
    {
      assert GoodSnapshot(s0, log, j, snaps[j]);
      SnapshotStays(s0, log, e, INTERVAL * j, snaps[j]);
    }
    assert Due(log) ==> GoodSnapshot(s0, log + [e], |snaps|, state);
  }

  /** The lists are those of the last snapshot as the lines since change them. */
  ghost predicate RightLists(log: seq<Entry>, snaps: seq<Net>, m: nat, g: Garbage, r: Net)
    requires Recoverable(log) && m <= |log|
  {
    var k := LastSnapshot(m);
    k / INTERVAL < |snaps| && Sound(snaps[k / INTERVAL]) && ListsRight(snaps[k / INTERVAL], log, k, m, g, r)
  }

  lemma RightListsStay(log: seq<Entry>, snaps: seq<Net>, e: Entry, later: seq<Net>, m: nat, g: Garbage, r: Net)
    requires Recoverable(log) && Recoverable(log + [e]) && m <= |log| && snaps <= later
    requires RightLists(log, snaps, m, g, r)
    ensures RightLists(log + [e], later, m, g, r)
  {
    hide Sound, Accepted, Run, SameLists, TouchesList, PresenceAgrees, LastSnapshot;
    var k := LastSnapshot(m);
    assert later[k / INTERVAL] == snaps[k / INTERVAL];
    EventsStay(log, e, k, m);
    forall letter: char, grain: Grain | Trusted(snaps[k / INTERVAL], log + [e], k, m, g, letter, grain)
      ensures Trusted(snaps[k / INTERVAL], log, k, m, g, letter, grain)
    {
      TrustedStays(log, e, k, m, snaps[k / INTERVAL], g, letter, grain);
    }
  }

  lemma EventsStay(log: seq<Entry>, e: Entry, k: nat, m: nat)
    requires Recoverable(log) && Recoverable(log + [e]) && k <= m <= |log|
    ensures Events(log + [e], k, m) == Events(log, k, m)
  {
    hide Recoverable, PrintsColon;
    forall x | 0 <= x < m - k
      ensures Events(log + [e], k, m)[x] == Events(log, k, m)[x]
    {
      assert (log + [e])[k + x] == log[k + x];
    }
  }

  lemma TrustedStays(log: seq<Entry>, e: Entry, k: nat, m: nat, snap: Net, g: Garbage, letter: char, grain: Grain)
    requires Recoverable(log) && Recoverable(log + [e]) && k <= m <= |log|
    requires Trusted(snap, log + [e], k, m, g, letter, grain)
    ensures Trusted(snap, log, k, m, g, letter, grain)
  {
    if grain.Exact? {
      EventsStay(log, e, k, m);
      hide Storable, PrintsColon, TouchesList;
      forall i | k <= i < m
        ensures !TouchesList(FRESH, Reread(log[i].line), letter)
      {
        assert (log + [e])[i] == log[i];
      }
    }
  }

  /** What is known of a past answer, seen from a log that has grown since. */
  ghost predicate Right(s0: Net, log: seq<Entry>, snaps: seq<Net>, o: Outcome)
    requires Replayable(s0, log)
  {
    match o
    case Nothing => true
    case Saw(from, to, count, entries, complete) =>
      count <= |log| && (from <= to <= count ==> complete && entries == AsRead(log)[from..to])
    case State(m, count, g, state) =>
      && count <= |log| && (m > count ==> state == None)
      && (m <= count ==> state.Some? && Alike(state.value, StateAfter(s0, log, m)))
      && (m <= count ==> RightLists(log, snaps, m, g, state.value))
  }

  lemma RightStays(s0: Net, log: seq<Entry>, snaps: seq<Net>, e: Entry, later: seq<Net>, o: Outcome)
    requires Replayable(s0, log) && Replayable(s0, log + [e]) && Right(s0, log, snaps, o) && snaps <= later
    ensures Right(s0, log + [e], later, o)
  {
    hide Replayable, StateAfter, Alike, RightLists;
    ReplayableReads(s0, log);
    ReplayableReads(s0, log + [e]);
    match o {
      case Nothing =>
      case Saw(from, to, count, entries, complete) =>
        if from <= to <= count { assert AsRead(log + [e])[from..to] == AsRead(log)[from..to]; }
      case State(m, count, g, state) =>
        if m <= count {
          PrefixStays(s0, log, e, m);
          RightListsStay(log, snaps, e, later, m, g, state.value);
        }
    }
  }

  lemma ReplayableReads(s0: Net, log: seq<Entry>)
    requires Replayable(s0, log)
    ensures Recoverable(log)
  {}

  lemma AllRightStays(s0: Net, log: seq<Entry>, snaps: seq<Net>, e: Entry, later: seq<Net>, os: seq<Outcome>)
    requires Replayable(s0, log) && Replayable(s0, log + [e]) && snaps <= later
    requires forall x :: 0 <= x < |os| ==> Right(s0, log, snaps, os[x])
    ensures forall x :: 0 <= x < |os| ==> Right(s0, log + [e], later, os[x])
  {
    forall x | 0 <= x < |os|
      ensures Right(s0, log + [e], later, os[x])
    {
      RightStays(s0, log, snaps, e, later, os[x]);
    }
  }

  // ------------------------------------------------------------------------ the calls

  ghost predicate InUse(c: LinestackContext, s0: Net)
    reads c
  {
    c.Valid() && Good(s0, c.log, c.snaps)
  }

  method StoreLine(c: LinestackContext, ghost s0: Net, l: Line, dir: Direction, state: Net, now: int)
    requires InUse(c, s0) && Sound(state) && IsTime(now) && (Needed(l, dir) ==> StoreOk(s0, c.log, l, dir, state, now))
    modifies c
    ensures InUse(c, s0) && c.log == (if Needed(l, dir) then old(c.log) + [Entry(l, now)] else old(c.log))
    ensures old(c.snaps) <= c.snaps && (c.log == old(c.log) ==> c.snaps == old(c.snaps))
  {
    hide Good, Sound, Needed, Consistent, StoreOk, Storable, LinesText, PrintNl, Replayable, SnapshotOk, Writable;
    ghost var log, snaps := c.log, c.snaps;
    ConsistentLog(log, snaps, c.lines.data, c.index.data, c.states, c.count, c.lastLineWithState);
    GoodIsReplayable(s0, log, snaps);
    if Needed(l, dir) {
      StoreParts(s0, log, l, dir, state, now);
      if Due(log) { DueCount(log, snaps, c.lines.data, c.index.data, c.states, c.count, c.lastLineWithState); }
      GoodGrows(s0, log, snaps, Entry(l, now), state);
    }
    c.Insert(l, dir, state, now);
  }

  lemma GoodIsReplayable(s0: Net, log: seq<Entry>, snaps: seq<Net>)
    requires Good(s0, log, snaps)
    ensures Replayable(s0, log)
  {}

  lemma DueCount(log: seq<Entry>, snaps: seq<Net>, lines: string, index: seq<Byte>, states: map<nat, string>,
                 count: nat, last: nat)
    requires Consistent(log, snaps, lines, index, states, count, last) && Due(log)
    ensures |log| == INTERVAL * |snaps|
  {
    hide LastSnapshot, Saved, LinesText, IndexBytes, AllStored, Recoverable, SnapshotOf;
    SnapshotDue(count);
  }

  /** linestack_get_state: whatever junk the memory held, and whenever it is replayed. */
  method StateAt(c: LinestackContext, ghost s0: Net, marker: Option<nat>, g: Garbage, now: int) returns (o: Outcome)
    requires InUse(c, s0) && (marker.Some? ==> marker.value >= 1)
    modifies c`lines, c`index
    ensures InUse(c, s0) && Replayable(s0, c.log) && Right(s0, c.log, c.snaps, o)
    ensures o.State? && o.count == |c.log| && o.g == g && o.marker == if marker.Some? then marker.value else |c.log|
  {
    hide Good, Consistent, Rebuild, Replayable, SnapshotOk, Writable, StateAfter, Alike, LastSnapshot, Sound;
    ghost var log, snaps := c.log, c.snaps;
    ConsistentLog(log, snaps, c.lines.data, c.index.data, c.states, c.count, c.lastLineWithState);
    GoodIsReplayable(s0, log, snaps);
    var m := if marker.Some? then marker.value else c.count;
    var r := c.GetState(marker, g, now);
    if m <= c.count {
      GoodAt(s0, log, snaps, m);
      RebuildIsFold(s0, log, snaps, m, g, now);
      RebuildLists(s0, log, snaps, m, g, now);
    }
    o := State(m, c.count, g, r);
  }

  lemma GoodAt(s0: Net, log: seq<Entry>, snaps: seq<Net>, m: nat)
    requires Good(s0, log, snaps) && m <= |log| && LastSnapshot(m) / INTERVAL < |snaps|
    ensures var k := LastSnapshot(m);
            && Replayable(s0, log) && Writable(snaps[k / INTERVAL]) && SnapshotOk(s0, log, k, snaps[k / INTERVAL])
            && (k == m ==> snaps[0] == s0)
  {
    hide Replayable, SnapshotOk, Writable;
    var k := LastSnapshot(m);
    assert GoodSnapshot(s0, log, k / INTERVAL, snaps[k / INTERVAL]) && INTERVAL * (k / INTERVAL) == k;
  }

  /** linestack_traverse with a handler that keeps what it is shown. */
  method Show(c: LinestackContext, ghost s0: Net, from: nat, to: nat) returns (o: Outcome)
    requires InUse(c, s0)
    modifies c`lines, c`index
    ensures InUse(c, s0) && Replayable(s0, c.log) && Right(s0, c.log, c.snaps, o)
    ensures o.Saw? && o.count == |c.log| && o.from == from && o.to == to
  {
    hide Good, Consistent, Replayable;
    ConsistentLog(c.log, c.snaps, c.lines.data, c.index.data, c.states, c.count, c.lastLineWithState);
    GoodIsReplayable(s0, c.log, c.snaps);
    var entries, complete := c.Traverse(from, Some(to),
                                        (a: seq<Entry>, l: Line, t: int) => (a + [Entry(l, t)], true), []);
    if from <= to <= c.count {
      VisitShowsRange(c.log, from, to, []);
      assert [] + AsRead(c.log)[from..to] == AsRead(c.log)[from..to];
    }
    o := Saw(from, to, c.count, entries, complete);
  }

  /** One call. */
  method Serve(c: LinestackContext, ghost s0: Net, call: Call) returns (o: Outcome)
    requires InUse(c, s0) && Replayable(s0, c.log)
    requires if call.Store? && Needed(call.line, call.dir)
             then Sound(call.state) && IsTime(call.now) && StoreOk(s0, c.log, call.line, call.dir, call.state, call.now)
             else PlainCallOk(call)
    modifies c
    ensures InUse(c, s0) && Replayable(s0, c.log) && Right(s0, c.log, c.snaps, o)
    ensures c.log ==
            if call.Store? && Needed(call.line, call.dir) then old(c.log) + [Entry(call.line, call.now)] else old(c.log)
    ensures old(c.snaps) <= c.snaps && (c.log == old(c.log) ==> c.snaps == old(c.snaps))
    ensures call.Rebuilt? ==> o.State? && o.g == call.g && (call.marker.Some? ==> o.marker == call.marker.value)
    ensures call.Look? ==> o.Saw? && o.from == call.from && o.to == call.to
  {
    hide Sound, Good, Needed, StoreOk, Replayable, Consistent;
    match call {
      case Store(l, dir, state, now) =>
        StoreLine(c, s0, l, dir, state, now);
        GoodIsReplayable(s0, c.log, c.snaps);
        o := Nothing;
      case Look(from, to) =>
        o := Show(c, s0, from, to);
      case Rebuilt(marker, g, at) =>
        o := StateAt(c, s0, marker, g, at);
    }
  }

  /** The answer is to the call. */
  ghost predicate Answers(call: Call, o: Outcome) {
    && (call.Rebuilt? ==> o.State? && o.g == call.g && (call.marker.Some? ==> o.marker == call.marker.value))
    && (call.Look? ==> o.Saw? && o.from == call.from && o.to == call.to)
  }

  ghost predicate AllRight(s0: Net, log: seq<Entry>, snaps: seq<Net>, calls: seq<Call>, os: seq<Outcome>)
    requires Replayable(s0, log)
  {
    |os| <= |calls| && forall x :: 0 <= x < |os| ==> Right(s0, log, snaps, os[x]) && Answers(calls[x], os[x])
  }

  lemma AllRightSnoc(s0: Net, log: seq<Entry>, snaps: seq<Net>, longer: seq<Entry>, later: seq<Net>,
                     calls: seq<Call>, os: seq<Outcome>, o: Outcome)
    requires Replayable(s0, log) && Replayable(s0, longer) && AllRight(s0, log, snaps, calls, os) && |os| < |calls|
    requires (longer == log && later == snaps) || (snaps <= later && exists e :: longer == log + [e])
    requires Right(s0, longer, later, o) && Answers(calls[|os|], o)
    ensures AllRight(s0, longer, later, calls, os + [o])
  {
    hide Replayable, Right, Answers;
    if longer != log || later != snaps {
      var e :| longer == log + [e];
      AllRightStays(s0, log, snaps, e, later, os);
    }
  }

  /** create_linestack, truncating. */
  method Start(s0: Net) returns (c: LinestackContext)
    requires Writable(s0)
    ensures fresh(c) && InUse(c, s0) && Replayable(s0, []) && c.log == []
  {
    WritableSound(s0);
    hide Sound, Good, Writable, Replayable, Consistent;
    c := new LinestackContext(s0);
    GoodStarts(s0);
  }

  /** What is asked of a whole run. */
  ghost predicate RunOk(s0: Net, calls: seq<Call>) {
    Writable(s0) && Replayable(s0, []) && CallsOk(s0, [], calls)
  }

  /** What a run of calls has stored. */
  function Logged(calls: seq<Call>): (log: seq<Entry>) {
    if calls == [] then []
    else
      var c := calls[|calls| - 1];
      Logged(calls[..|calls| - 1]) + if c.Store? && Needed(c.line, c.dir) then [Entry(c.line, c.now)] else []
  }

  /** The first calls are answered rightly, and the rest may still be made. */
  ghost predicate Served(c: LinestackContext, s0: Net, calls: seq<Call>, os: seq<Outcome>)
    reads c
  {
    && InUse(c, s0) && Replayable(s0, c.log) && |os| <= |calls| && c.log == Logged(calls[..|os|])
    && CallsOk(s0, c.log, calls[|os|..]) && AllRight(s0, c.log, c.snaps, calls, os)
  }

  method ServeNext(c: LinestackContext, ghost s0: Net, calls: seq<Call>, os: seq<Outcome>) returns (o: Outcome)
    requires Served(c, s0, calls, os) && |os| < |calls|
    modifies c
    ensures Served(c, s0, calls, os + [o])
  {
    hide InUse, Replayable, CallsOk, AllRight, Right, Answers, StoreOk, Needed, PlainCallOk, Sound;
    ghost var before, snaps, rest := c.log, c.snaps, calls[|os|..];
    assert rest[1..] == calls[|os| + 1..] && rest[0] == calls[|os|];
    CallsOkStep(s0, before, rest);
    o := Serve(c, s0, calls[|os|]);
    AnswersWhen(calls[|os|], o);
    AllRightSnoc(s0, before, snaps, c.log, c.snaps, calls, os, o);
    assert calls[..|os| + 1][..|os|] == calls[..|os|];
  }

  /** create_linestack and any run of calls: every state rebuilt at a marker is the fold of the first
      that many stored lines, and every traversal shows the lines of its range, in order. */
  method Use(s0: Net, calls: seq<Call>) returns (c: LinestackContext, os: seq<Outcome>)
    requires RunOk(s0, calls)
    ensures fresh(c) && |os| == |calls| && Served(c, s0, calls, os)
  {
    c := StartServing(s0, calls);
    os := [];
    hide Served, RunOk;
    while |os| < |calls|
      invariant fresh(c) && |os| <= |calls| && Served(c, s0, calls, os)
      decreases |calls| - |os|
    {
      var o := ServeNext(c, s0, calls, os);
      os := os + [o];
    }
  }

  method StartServing(s0: Net, calls: seq<Call>) returns (c: LinestackContext)
    requires RunOk(s0, calls)
    ensures fresh(c) && Served(c, s0, calls, [])
  {
    hide InUse, Replayable, CallsOk, AllRight, Writable;
    c := Start(s0);
    NothingYet(s0, c.log, c.snaps, calls);
    assert calls[0..] == calls && calls[..0] == [];
  }

  lemma AnswersWhen(call: Call, o: Outcome)
    requires call.Rebuilt? ==> o.State? && o.g == call.g && (call.marker.Some? ==> o.marker == call.marker.value)
    requires call.Look? ==> o.Saw? && o.from == call.from && o.to == call.to
    ensures Answers(call, o)
  {}

  lemma NothingYet(s0: Net, log: seq<Entry>, snaps: seq<Net>, calls: seq<Call>)
    requires Replayable(s0, log)
    ensures AllRight(s0, log, snaps, calls, [])
  {}

  lemma CallsOkStep(s0: Net, log: seq<Entry>, calls: seq<Call>)
    requires Replayable(s0, log) && calls != [] && CallsOk(s0, log, calls)
    ensures var c := calls[0];
            if c.Store? && Needed(c.line, c.dir) then
              && Sound(c.state) && IsTime(c.now) && StoreOk(s0, log, c.line, c.dir, c.state, c.now)
              && Replayable(s0, log + [Entry(c.line, c.now)]) && CallsOk(s0, log + [Entry(c.line, c.now)], calls[1..])
            else PlainCallOk(c) && CallsOk(s0, log, calls[1..])
  {
    hide Replayable, Sound, Needed, Storable, SnapshotOk, Writable, Accepts;
  }
}
