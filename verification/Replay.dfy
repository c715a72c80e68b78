/** A snapshot and the lines after it give the state that folding all stored lines gives. */
module Replay {
  import opened Base
  import opened Casemap
  import opened Info
  import opened Line
  import opened State
  import opened Handlers
  import opened Unique
  import opened Views
  import opened Lists
  import opened Marshal
  import opened LogFiles
  import opened Linestack

  /** Snapshots carry no network information: a state is rebuilt under the default one. */
  function Default(s: Net): (r: Net)
    ensures Sound(s) ==> Sound(r)
  {
    s.(info := FRESH)
  }

  /** The entries from `i` to `j` as the file gives them, handled at the time they were stored. */
  function Events(log: seq<Entry>, i: nat, j: nat): (r: seq<Event>)
    requires Recoverable(log) && i <= j <= |log|
    ensures |r| == j - i && forall x :: 0 <= x < |r| ==> r[x] == Event(Reread(log[i + x].line), log[i + x].time)
  {
    seq(j - i, x requires 0 <= x < j - i => Event(Reread(log[i + x].line), log[i + x].time))
  }

  /** The same lines all handled at `now`. */
  function EventsAt(log: seq<Entry>, i: nat, j: nat, now: int): (r: seq<Event>)
    requires Recoverable(log) && i <= j <= |log|
    ensures |r| == j - i && forall x :: 0 <= x < |r| ==> r[x] == Event(Reread(log[i + x].line), now)
  {
    seq(j - i, x requires 0 <= x < j - i => Event(Reread(log[i + x].line), now))
  }

  /** The whole log is one its lines get through. */
  ghost predicate Replayable(s0: Net, log: seq<Entry>) {
    Sound(s0) && Recoverable(log) && AllStored(log) && Accepted(Default(s0), Events(log, 0, |log|))
  }

  lemma FoldSplit(s0: Net, log: seq<Entry>, k: nat, m: nat)
    requires Replayable(s0, log) && k <= m <= |log|
    ensures Accepted(Default(s0), Events(log, 0, k)) && Accepted(Default(s0), Events(log, 0, m))
    ensures var f := Run(Default(s0), Events(log, 0, k));
            Accepted(f, Events(log, k, m)) && Run(f, Events(log, k, m)) == Run(Default(s0), Events(log, 0, m))
  {
    hide Sound, Accepted, Run, Recoverable, AllStored, Reread;
    assert Events(log, 0, |log|) == Events(log, 0, m) + Events(log, m, |log|);
    RunSplit(Default(s0), Events(log, 0, m), Events(log, m, |log|));
    assert Events(log, 0, m) == Events(log, 0, k) + Events(log, k, m);
    RunSplit(Default(s0), Events(log, 0, k), Events(log, k, m));
  }

  /** The fold of state_handle_data over the first `m` stored lines. */
  ghost function StateAfter(s0: Net, log: seq<Entry>, m: nat): (r: Net)
    requires Replayable(s0, log) && m <= |log|
    ensures Sound(r)
  {
    FoldSplit(s0, log, m, m);
    Run(Default(s0), Events(log, 0, m))
  }

  /** What a snapshot taken as line `k` is stored must be: the state before that line, or the
      state after it where handling the line once more changes nothing. */
  ghost predicate SnapshotOk(s0: Net, log: seq<Entry>, k: nat, snap: Net)
    requires Replayable(s0, log) && k <= |log|
  {
    || Alike(Default(snap), StateAfter(s0, log, k))
    || (k < |log| && Alike(Default(snap), StateAfter(s0, log, k + 1)) &&
        Idempotent(StateAfter(s0, log, k + 1), Reread(log[k].line), log[k].time))
  }

  ghost predicate Idempotent(s: Net, l: Line, now: int)
    requires Sound(s)
  {
    Accepts(s, l) && Alike(Step(s, l, now), s)
  }

  // ------------------------------------------------------------------------- proof

  /** What is read from a snapshot looks like what was written. */
  lemma RefilledAlike(s: Net, g: Garbage)
    requires Writable(s)
    ensures Alike(RefilledNet(s, g), Default(s))
  {
    hide NickOk, ChanDataOk, DistinctNames, Sound, SlotsFrom, Alike;
    WritableSound(s);
    SoundMe(s);
    var r, d := RefilledNet(s, g), Default(s);
    forall i | 0 <= i < |s.channels|
      ensures ViewChan(r.channels[i]) == ViewChan(d.channels[i])
    {
      assert ChanOk(s.people, s.channels[i]);
      AllSlots(s.channels[i].data);
      AlikeChan(r.channels[i], d.channels[i]);
    }
    assert forall k :: 0 <= k < |s.people| ==> ViewNick(r.people[k]) == ViewNick(d.people[k]);
    AlikeBy(r, d);
  }

  lemma AllSlots(d: ChanData)
    requires ChanDataOk(d)
    ensures SlotsFrom(d, 0).options == d.options
  {}

  lemma {:induction false} VisitIsRun(log: seq<Entry>, k: nat, m: nat, now: int, s: Net)
    requires Recoverable(log) && k <= m <= |log| && Sound(s) && Accepted(s, EventsAt(log, k, m, now))
    ensures Visit(log, k, m, Replayer(now), s) == (Run(s, EventsAt(log, k, m, now)), true)
    decreases m - k
  {
    hide Sound, Accepts, Step, Storable, Recoverable, PrintsColon;
    if k < m {
      EventsAtCons(log, k, m, now);
      VisitIsRun(log, k + 1, m, now, Step(s, EventsAt(log, k, m, now)[0].line, now));
    }
  }

  lemma EventsAtCons(log: seq<Entry>, k: nat, m: nat, now: int)
    requires Recoverable(log) && k < m <= |log|
    ensures |log[k].line.args| >= 1
    ensures EventsAt(log, k, m, now)[0] == Event(Reread(log[k].line), now)
    ensures EventsAt(log, k, m, now)[1..] == EventsAt(log, k + 1, m, now)
  {
    StorableHasArgs(log[k].line);
    hide Storable, PrintsColon;
  }

  lemma AlikeTrans(a: Net, b: Net, c: Net)
    requires Alike(a, b) && Alike(b, c)
    ensures Alike(a, c) && Alike(b, a) && Alike(c, a)
  {}

  /** Replaying a stretch of the log from a state like the fold up to there. */
  lemma ReplayStretch(s0: Net, log: seq<Entry>, k: nat, m: nat, now: int, b: Net)
    requires Replayable(s0, log) && k <= m <= |log| && Sound(b) && Alike(b, StateAfter(s0, log, k))
    ensures Accepted(b, EventsAt(log, k, m, now)) && Alike(Run(b, EventsAt(log, k, m, now)), StateAfter(s0, log, m))
    ensures Visit(log, k, m, Replayer(now), b) == (Run(b, EventsAt(log, k, m, now)), true)
  {
    hide Sound, Alike, Accepted, Run, Storable, IsStored, Visit, CommandOf;
    FoldSplit(s0, log, k, m);
    var f, x, y := StateAfter(s0, log, k), Events(log, k, m), EventsAt(log, k, m, now);
    AlikeTrans(b, f, f) by { AlikeRefl(f); }
    assert SameLines(x, y);
    RunAlike(f, b, x, y);
    AlikeTrans(Run(f, x), Run(b, y), Run(b, y)) by { AlikeRefl(Run(b, y)); }
    VisitIsRun(log, k, m, now, b);
  }

  /** Replaying from a snapshot that already contains its first line. */
  lemma ReplayAgain(s0: Net, log: seq<Entry>, k: nat, m: nat, now: int, b: Net)
    requires Replayable(s0, log) && k < m <= |log| && Sound(b) && Alike(b, StateAfter(s0, log, k + 1))
    requires Idempotent(StateAfter(s0, log, k + 1), Reread(log[k].line), log[k].time)
    ensures Alike(Visit(log, k, m, Replayer(now), b).0, StateAfter(s0, log, m))
  {
    hide Sound, Alike, Accepted, Run, Accepts, Step, IsStored;
    var f, l := StateAfter(s0, log, k + 1), Reread(log[k].line);
    AlikeTrans(b, f, f) by { AlikeRefl(f); }
    StepAlike(f, b, l, log[k].time, now);
    var b1 := Step(b, l, now);
    AlikeTrans(b1, Step(f, l, log[k].time), f) by { Symmetric(Step(f, l, log[k].time), b1); }
    ReplayStretch(s0, log, k + 1, m, now, b1);
  }

  lemma Symmetric(a: Net, b: Net)
    requires Alike(a, b)
    ensures Alike(b, a)
  {}

  /** linestack_get_state at marker `m`: the fold over the first `m` stored lines, after handling
      at most a thousand of them. */
  lemma RebuildIsFold(s0: Net, log: seq<Entry>, snaps: seq<Net>, m: nat, g: Garbage, now: int)
    requires Replayable(s0, log) && m <= |log| && LastSnapshot(m) / INTERVAL < |snaps|
    requires var k := LastSnapshot(m);
             Writable(snaps[k / INTERVAL]) && SnapshotOk(s0, log, k, snaps[k / INTERVAL]) && (k == m ==> snaps[0] == s0)
    ensures m - LastSnapshot(m) <= 1000
    ensures var r := Rebuild(snaps, log, m, g, now); r.Some? && Sound(r.value) && Alike(r.value, StateAfter(s0, log, m))
  {
    hide Sound, Alike, StateAfter, Visit, Writable, Replayable, Idempotent, GetNet, PutNet, RefilledNet;
    var k := LastSnapshot(m);
    var snap := snaps[k / INTERVAL];
    WritableSound(snap);
    GetNetOfPut(snap, g);
    RefilledAlike(snap, g);
    var b := RefilledNet(snap, g);
    RebuildFrom(s0, log, k, m, snap, b, now);
  }

  lemma WritableSound(s: Net)
    requires Writable(s)
    ensures Sound(s)
  {}

  lemma RebuildFrom(s0: Net, log: seq<Entry>, k: nat, m: nat, snap: Net, b: Net, now: int)
    requires Replayable(s0, log) && k <= m <= |log| && SnapshotOk(s0, log, k, snap) && Sound(b)
    requires Alike(b, Default(snap))
    requires k == m ==> snap == s0 && k == 0
    ensures var r := Visit(log, k, m, Replayer(now), b).0; Sound(r) && Alike(r, StateAfter(s0, log, m))
  {
    hide Sound, Visit, Idempotent;
    if k == m {
      assert StateAfter(s0, log, 0) == Default(s0) by { assert log[..0] == []; }
      assert Visit(log, k, m, Replayer(now), b).0 == b by { VisitNothing(log, k, now, b); }
    } else if Alike(Default(snap), StateAfter(s0, log, k)) {
      AlikeTrans(b, Default(snap), StateAfter(s0, log, k));
      ReplayStretch(s0, log, k, m, now, b);
    } else {
      AlikeTrans(b, Default(snap), StateAfter(s0, log, k + 1));
      ReplayAgain(s0, log, k, m, now, b);
    }
    AlikeParts(StateAfter(s0, log, m), Visit(log, k, m, Replayer(now), b).0);
  }

  /** Handling line `k` again after the first `k + 1`: whether its handler gets through, and whether it
      changes nothing. */
  ghost predicate Again(s0: Net, log: seq<Entry>, k: nat)
    requires Replayable(s0, log) && k < |log|
  {
    Accepts(StateAfter(s0, log, k + 1), Reread(log[k].line))
  }

  ghost predicate AgainIsNothing(s0: Net, log: seq<Entry>, k: nat)
    requires Replayable(s0, log) && k < |log|
  {
    Idempotent(StateAfter(s0, log, k + 1), Reread(log[k].line), log[k].time)
  }

  /** The rebuild at marker `m` is the fold of the first `m` lines. */
  ghost predicate RebuiltRight(s0: Net, log: seq<Entry>, snaps: seq<Net>, m: nat, g: Garbage, now: int)
    requires Replayable(s0, log) && m <= |log| && LastSnapshot(m) / INTERVAL < |snaps|
    requires Sound(snaps[LastSnapshot(m) / INTERVAL])
  {
    var r := Rebuild(snaps, log, m, g, now); r.Some? && Alike(r.value, StateAfter(s0, log, m))
  }

  /** A rebuild right behind a snapshot that already contains its line is right if and only if
      handling that line again changes nothing. */
  lemma RebuildAtSnapshotIff(s0: Net, log: seq<Entry>, snaps: seq<Net>, k: nat, g: Garbage, now: int)
    requires Replayable(s0, log) && k < |log| && LastSnapshot(k + 1) == k && k / INTERVAL < |snaps|
    requires Writable(snaps[k / INTERVAL]) && Sound(snaps[k / INTERVAL]) && Again(s0, log, k)
    requires Alike(Default(snaps[k / INTERVAL]), StateAfter(s0, log, k + 1))
    ensures RebuiltRight(s0, log, snaps, k + 1, g, now) <==> AgainIsNothing(s0, log, k)
  {
    hide Sound, Alike, StateAfter, Writable, GetNet, PutNet, RefilledNet, Accepts, Step, PrintsColon;
    hide IsStored, CommandOf, Visit, LastSnapshot, Accepted, Run;
    LineIsStored(s0, log, k);
    hide Replayable, Recoverable;
    var snap, f, l, t := snaps[k / INTERVAL], StateAfter(s0, log, k + 1), Reread(log[k].line), log[k].time;
    GetNetOfPut(snap, g);
    RefilledAlike(snap, g);
    var b := RefilledNet(snap, g);
    AlikeTrans(b, Default(snap), f);
    AlikeParts(b, f);
    StepAlike(f, b, l, t, now);
    VisitOne(log, k, now, b);
    var x, y := Step(f, l, t), Step(b, l, now);
    if Alike(y, f) { AlikeTrans(x, y, f); }
    if Alike(x, f) { Symmetric(x, y); AlikeTrans(y, x, f); }
  }

  lemma LineIsStored(s0: Net, log: seq<Entry>, k: nat)
    requires Replayable(s0, log) && k < |log|
    ensures Recoverable(log) && |log[k].line.args| >= 1 && IsStored(CommandOf(Reread(log[k].line)))
  {
    StorableHasArgs(log[k].line);
    hide Storable, Accepted, IsStored, PrintsColon;
  }

  lemma VisitOne(log: seq<Entry>, k: nat, now: int, b: Net)
    requires Recoverable(log) && k < |log| && |log[k].line.args| >= 1 && Sound(b) && Accepts(b, Reread(log[k].line))
    ensures Visit(log, k, k + 1, Replayer(now), b).0 == Step(b, Reread(log[k].line), now)
  {
    hide Sound, Accepts, Step, Storable, PrintsColon;
    VisitNothing(log, k + 1, now, Step(b, Reread(log[k].line), now));
  }

  lemma VisitNothing(log: seq<Entry>, k: nat, now: int, b: Net)
    requires Recoverable(log)
    ensures Visit(log, k, k, Replayer(now), b) == (b, true)
  {}

  /** The state at a marker followed by the lines since gives the state now. */
  lemma MarkerThenRest(s0: Net, log: seq<Entry>, m: nat, b: Net, now: int)
    requires Replayable(s0, log) && m <= |log| && Sound(b) && Alike(b, StateAfter(s0, log, m))
    ensures Alike(Visit(log, m, |log|, Replayer(now), b).0, StateAfter(s0, log, |log|))
  {
    hide Sound, Alike, StateAfter, Visit, Replayable;
    ReplayStretch(s0, log, m, |log|, now, b);
  }

  // ------------------------------------------------------ the lists of a rebuilt state

  /** A letter whose rebuilt list can be relied on: to the entry if no line since the snapshot touches
      it, and but for the times if the memory the snapshot is read into happens to say the same of its
      presence, which is not in the file. */
  predicate Trusted(snap: Net, log: seq<Entry>, k: nat, m: nat, g: Garbage, letter: char, grain: Grain)
    requires Recoverable(log) && k <= m <= |log|
  {
    if grain.Exact? then forall i :: k <= i < m ==> !TouchesList(FRESH, Reread(log[i].line), letter)
    else PresenceAgrees(snap, g, letter)
  }

  predicate PresenceAgrees(snap: Net, g: Garbage, letter: char) {
    forall i :: 0 <= i < |snap.channels| ==>
      (letter in g.chans(i).present <==> letter in snap.channels[i].data.present)
  }

  /** The lists of `r` are those of the snapshot as the lines since change them. */
  ghost predicate ListsRight(snap: Net, log: seq<Entry>, k: nat, m: nat, g: Garbage, r: Net)
    requires Recoverable(log) && k <= m <= |log| && Sound(snap)
  {
    && Accepted(Default(snap), Events(log, k, m))
    && forall letter: char, grain: Grain :: letter as int < 255 && Trusted(snap, log, k, m, g, letter, grain) ==>
         SameLists(r, Run(Default(snap), Events(log, k, m)), letter, grain)
  }

  lemma RefilledLists(s: Net, g: Garbage, letter: char, grain: Grain)
    requires Sound(s) && letter as int < 255 && (!grain.Exact? ==> PresenceAgrees(s, g, letter))
    ensures SameLists(Default(s), RefilledNet(s, g), letter, grain)
  {
    hide Sound, SameEntries;
    var r := RefilledNet(s, g);
    forall i | 0 <= i < |s.channels|
      ensures SameList(s.channels[i].data, r.channels[i].data, letter, grain)
    {
      var d := s.channels[i].data;
      assert Entries(r.channels[i].data, letter) == Entries(d, letter);
      SameEntriesRefl(Entries(d, letter), grain);
    }
  }

  lemma SameEntriesRefl(es: seq<ListEntry>, grain: Grain)
    ensures SameEntries(es, es, grain)
  {}

  /** The lines since a snapshot that a rebuild can start from can be handled from it. */
  lemma SnapshotAccepts(s0: Net, log: seq<Entry>, k: nat, m: nat, snap: Net)
    requires Replayable(s0, log) && k <= m <= |log| && SnapshotOk(s0, log, k, snap) && Sound(snap)
    ensures Accepted(Default(snap), Events(log, k, m))
  {
    hide Sound, Alike, Accepted, Run, Accepts, Step, IsStored, StateAfter, CommandOf, Recoverable, PrintsColon;
    var d := Default(snap);
    if k < m {
      if Alike(d, StateAfter(s0, log, k)) {
        StretchAccepts(s0, log, k, m, d);
      } else {
        EventsCons(log, k, m);
        var f, l, t := StateAfter(s0, log, k + 1), Reread(log[k].line), log[k].time;
        Symmetric(d, f);
        StepAlike(f, d, l, t, t);
        Symmetric(Step(f, l, t), Step(d, l, t));
        AlikeTrans(Step(d, l, t), Step(f, l, t), f);
        StretchAccepts(s0, log, k + 1, m, Step(d, l, t));
        AcceptedCons(d, Events(log, k, m));
      }
    } else {
      NoneAccepted(d, Events(log, k, m));
    }
  }

  lemma StretchAccepts(s0: Net, log: seq<Entry>, k: nat, m: nat, b: Net)
    requires Replayable(s0, log) && k <= m <= |log| && Sound(b) && Alike(b, StateAfter(s0, log, k))
    ensures Accepted(b, Events(log, k, m))
  {
    hide Sound, Alike, Accepted, Run, Storable, IsStored, CommandOf;
    FoldSplit(s0, log, k, m);
    Symmetric(b, StateAfter(s0, log, k));
    assert SameLines(Events(log, k, m), Events(log, k, m));
    RunAlike(StateAfter(s0, log, k), b, Events(log, k, m), Events(log, k, m));
  }

  lemma NoneAccepted(s: Net, es: seq<Event>)
    requires Sound(s) && es == []
    ensures Accepted(s, es)
  {}

  lemma AcceptedCons(s: Net, es: seq<Event>)
    requires Sound(s) && es != [] && Accepts(s, es[0].line) && Accepted(Step(s, es[0].line, es[0].now), es[1..])
    ensures Accepted(s, es) && Run(s, es) == Run(Step(s, es[0].line, es[0].now), es[1..])
  {
    hide Sound, Accepts, Step;
  }

  lemma EventsCons(log: seq<Entry>, k: nat, m: nat)
    requires Recoverable(log) && k < m <= |log|
    ensures |log[k].line.args| >= 1
    ensures Events(log, k, m)[0] == Event(Reread(log[k].line), log[k].time)
    ensures Events(log, k, m)[1..] == Events(log, k + 1, m)
  {
    StorableHasArgs(log[k].line);
    hide Storable, PrintsColon;
  }

  /** A rebuild starts from the lists of its snapshot, letter by letter. */
  lemma RebuildLists(s0: Net, log: seq<Entry>, snaps: seq<Net>, m: nat, g: Garbage, now: int)
    requires Replayable(s0, log) && m <= |log| && LastSnapshot(m) / INTERVAL < |snaps|
    requires var k := LastSnapshot(m);
             Writable(snaps[k / INTERVAL]) && SnapshotOk(s0, log, k, snaps[k / INTERVAL])
    ensures Recoverable(log) && Sound(snaps[LastSnapshot(m) / INTERVAL])
    ensures var k, r := LastSnapshot(m), Rebuild(snaps, log, m, g, now);
            r.Some? && ListsRight(snaps[k / INTERVAL], log, k, m, g, r.value)
  {
    hide Sound, Alike, StateAfter, Visit, Writable, Idempotent, GetNet, PutNet, RefilledNet, Accepted, Run;
    hide Recoverable, SnapshotOk, Trusted, SameLists, AllStored;
    var k := LastSnapshot(m);
    var snap := snaps[k / INTERVAL];
    WritableSound(snap);
    GetNetOfPut(snap, g);
    RefilledAlike(snap, g);
    SnapshotAccepts(s0, log, k, m, snap);
    var b := RefilledNet(snap, g);
    RefilledSound(snap, g);
    forall letter: char, grain: Grain | letter as int < 255 && Trusted(snap, log, k, m, g, letter, grain)
      ensures SameLists(Visit(log, k, m, Replayer(now), b).0, Run(Default(snap), Events(log, k, m)), letter, grain)
    {
      ReplayLists(log, k, m, snap, g, now, letter, grain);
    }
  }

  lemma RefilledSound(s: Net, g: Garbage)
    requires Sound(s) && Alike(RefilledNet(s, g), Default(s))
    ensures Sound(RefilledNet(s, g))
  {
    hide Sound, Alike, RefilledNet;
    AlikeParts(RefilledNet(s, g), Default(s));
  }

  lemma ReplayLists(log: seq<Entry>, k: nat, m: nat, snap: Net, g: Garbage, now: int, letter: char, grain: Grain)
    requires Recoverable(log) && AllStored(log) && k <= m <= |log| && Sound(snap)
    requires Accepted(Default(snap), Events(log, k, m))
    requires Sound(RefilledNet(snap, g)) && Alike(RefilledNet(snap, g), Default(snap))
    requires letter as int < 255 && Trusted(snap, log, k, m, g, letter, grain)
    ensures SameLists(Visit(log, k, m, Replayer(now), RefilledNet(snap, g)).0, Run(Default(snap), Events(log, k, m)),
                      letter, grain)
  {
    hide Sound, Alike, Accepted, Run, Storable, IsStored, Visit, CommandOf, RefilledNet, SameLists, TouchesList;
    hide PresenceAgrees;
    var a, b, x, y := Default(snap), RefilledNet(snap, g), Events(log, k, m), EventsAt(log, k, m, now);
    assert SameLines(x, y);
    Symmetric(b, a);
    RefilledLists(snap, g, letter, grain);
    RunAlike(a, b, x, y);
    VisitIsRun(log, k, m, now, b);
    RunLists(a, b, x, y, letter, grain);
    SameListsSym(Run(a, x), Run(b, y), letter, grain);
  }

  // ------------------------------------------------- lines that may be handled twice

  /** A line the parser produced is stored as it is. */
  lemma ParsedIsReread(d: string)
    requires Parse(d).Some?
    ensures Reread(Parse(d).value) == Parse(d).value
  {
    ParsePrintParse(d);
    ParseIsWellFormed(d);
    ParseOfPrint(Parse(d).value);
  }

  lemma DataTwice(d: ChanData, l: Line, now: int)
    requires IsDataLine(CommandOf(l)) && Complete(l) && DataArgsOk(l) && IsStored(CommandOf(l))
    ensures DataChange(DataChange(d, l, now), l, now) == DataChange(d, l, now)
    ensures DataChange(d, l, now).name == d.name
  {
    hide CommandNamed, DataChange;
    var c := CommandOf(l);
    if c == TOPIC || c == N331 || c == N332 || c == N333 {
      TopicTwice(d, l, now);
    } else {
      ModeIsTwice(d, l, now);
    }
  }

  lemma TopicTwice(d: ChanData, l: Line, now: int)
    requires Complete(l) && DataArgsOk(l)
    requires CommandOf(l) == TOPIC || CommandOf(l) == N331 || CommandOf(l) == N332 || CommandOf(l) == N333
    ensures DataChange(DataChange(d, l, now), l, now) == DataChange(d, l, now) && DataChange(d, l, now).name == d.name
  {
    hide CommandNamed, StringToModes, StrtolAuto, Atoi, ListReply, ListEnd;
  }

  lemma ModeIsTwice(d: ChanData, l: Line, now: int)
    requires Complete(l) && DataArgsOk(l) && (CommandOf(l) == N324 || CommandOf(l) == N329 || CommandOf(l) == N366)
    ensures DataChange(DataChange(d, l, now), l, now) == DataChange(d, l, now) && DataChange(d, l, now).name == d.name
  {
    hide CommandNamed, StringToModes, StrtolAuto, Atoi, ListReply, ListEnd;
  }

  /** Topics, modes and the other data of a channel may be set twice. */
  lemma DataIsIdempotent(s: Net, l: Line, now: int)
    requires Sound(s) && Accepts(s, l) && Complete(l) && IsDataLine(CommandOf(l)) && IsStored(CommandOf(l))
    ensures var r := Step(s, l, now); Accepts(r, l) && Step(r, l, now) == r
  {
    hide DataChange, Sound, CommandNamed;
    var r := Step(s, l, now);
    if CommandOf(l) != TOPIC || l.origin.Some? {
      var i := FindChan(s, DataTarget(l));
      if i < |s.channels| {
        DataTwice(s.channels[i].data, l, now);
        assert ChanNames(r.channels) == ChanNames(s.channels);
        WithSameChan(r, i);
      }
    }
  }

  /** A message may be handled twice. */
  lemma MessageIsIdempotent(s: Net, l: Line, now: int)
    requires Sound(s) && Accepts(s, l) && (CommandOf(l) == PRIVMSG || CommandOf(l) == OTHER)
    ensures var r := Step(s, l, now); Accepts(r, l) && Step(r, l, now) == r
  {
    hide Sound, CommandNamed, QueryStep, HasPrefix, FindPerson, Same;
    SoundMe(s);
    if CommandOf(l) == PRIVMSG && Complete(l) && l.origin.Some? {
      QueryTwice(s, NickPart(l.origin.value));
    }
  }

  lemma QueryTwice(s: Net, name: string)
    requires Sound(s)
    ensures var r := QueryStep(s, name);
            QueryStep(r, name) == r && KnownPerson(r, name) && |r.people| >= 1 && r.people[0].nick == s.people[0].nick
  {
    var r, s1, k := QueryStep(s, name), AddPerson(s, name), FindPerson(s, name);
    assert PeopleNames(r.people) == PeopleNames(s1.people);
    AddedIsFound(s, name);
    assert r.people[k := r.people[k].(query := true)] == r.people;
  }

  lemma AddedIsFound(s: Net, name: string)
    ensures FindPerson(AddPerson(s, name), name) == FindPerson(s, name)
  {
    var r := AddPerson(s, name);
    if !KnownPerson(s, name) {
      var a, b := PeopleNames(s.people), PeopleNames(r.people);
      assert b == a + [name] && b[|a|] == name;
      assert forall x :: 0 <= x < |a| ==> b[x] == a[x];
    }
  }

  /** NICK may be handled twice exactly when the new nick is another spelling of the old: with any
      other nick the second time round invents somebody. */
  lemma NickIsIdempotentIff(s: Net, l: Line, now: int)
    requires Sound(s) && Accepts(s, l) && Distinct(s) && CommandOf(l) == NICK && Complete(l) && l.origin.Some?
    ensures Idempotent(Step(s, l, now), l, now) <==> Eq(s.info, NickPart(l.origin.value), l.args[1])
    ensures var r := Step(s, l, now); Idempotent(r, l, now) ==> Step(r, l, now) == r
  {
    hide Sound, Alike, CommandNamed, Distinct, Fresh, FindPerson;
    var name, to := NickPart(l.origin.value), l.args[1];
    var k, s1, r := FindPerson(s, name), AddPerson(s, name), Step(s, l, now);
    AddPersonKeeps(s, name);
    RespellingIsFresh(s1, k, name);
    AlikeRefl(r);
    if Eq(s.info, name, to) {
      RenamedIsFound(s1, k, name, to);
      assert r.people[k := r.people[k]] == r.people;
    } else {
      RenamedIsLost(s1, k, name, to);
      if Accepts(r, l) {
        assert |Step(r, l, now).people| == |r.people| + 1;
        if Alike(Step(r, l, now), r) { AlikeParts(Step(r, l, now), r); }
      }
    }
  }

  lemma RenamedIsFound(s: Net, k: nat, name: string, to: string)
    requires k < |s.people| && Fresh(s, k, name) && Eq(s.info, name, to)
    ensures FindPerson(WithPerson(s, k, SetNick(s.people[k], to)), name) == k
  {
    var r := WithPerson(s, k, SetNick(s.people[k], to));
    assert Same(s.info.casemapping, PeopleNames(r.people)[k], name);
  }

  lemma RenamedIsLost(s: Net, k: nat, name: string, to: string)
    requires k < |s.people| && Fresh(s, k, name) && !Eq(s.info, name, to)
    ensures FindPerson(WithPerson(s, k, SetNick(s.people[k], to)), name) == |s.people|
  {
    var r := WithPerson(s, k, SetNick(s.people[k], to));
    assert forall x :: 0 <= x < |s.people| ==> !Same(s.info.casemapping, PeopleNames(r.people)[x], name);
  }
}
