/** The proxy's own use of the linestack: it handles each line a server sends and then stores it, with
    the state it has by then. Such a caller keeps what the linestack asks, so that what it is answered
    is right. */
module Live {
  import opened Base
  import opened Info
  import opened Line
  import opened State
  import opened Handlers
  import opened Unique
  import opened Views
  import opened Marshal
  import opened LogFiles
  import opened Linestack
  import opened Replay
  import opened Repeats
  import opened Settling
  import opened Unstored
  import opened Session

  /** A text from the server, or a question to the linestack. */
  datatype Doing = Arrive(text: string, now: int) | Ask(call: Call)

  /** A state may know more of the network than the linestack, which is not told of 004 and 005: the line
      does the same to what a snapshot shows, whatever else is known. */
  ghost predicate SeenAlike(live: Net, l: Line, now: int)
    requires Sound(live) && Accepts(live, l)
  {
    Accepts(Default(live), l) && Alike(Default(Step(live, l, now)), Step(Default(live), l, now))
  }

  /** Under the default network information every stored line does. */
  lemma DefaultSeenAlike(live: Net, l: Line, now: int)
    requires Sound(live) && Accepts(live, l) && live.info == FRESH && IsStored(CommandOf(l))
    ensures SeenAlike(live, l, now)
  {
    hide Sound, Accepts, Step, CommandNamed, Alike;
    assert Default(live) == live;
    AlikeRefl(Step(live, l, now));
  }

  /** A line that can be stored next, after its handler got through it; where a snapshot is due, with a
      state that fits the format, and no NICK that renames. */
  ghost predicate StoresOk(log: seq<Entry>, live: Net, l: Line, now: int)
    requires Sound(live) && Accepts(live, l)
  {
    && Storable(l) && |LinesText(log)| + |PrintNl(l)| < TWO63 && |log| + 1 < TWO63
    && SeenAlike(live, l, now)
    && (Due(log) ==> Writable(Step(live, l, now)) && Distinct(Default(live)) && PlainJoin(Default(live), l) &&
                     !Renames(Default(live), l))
  }

  /** A line from the server: one that is stored; or one of the few that are not and may change the view,
      which does not; or any other. */
  ghost predicate ArrivesOk(log: seq<Entry>, live: Net, text: string, now: int)
    requires Sound(live)
  {
    && Parse(text).Some? && IsTime(now) && Accepts(live, Parse(text).value)
    && (Needed(Parse(text).value, FromServer) ==> StoresOk(log, live, Parse(text).value, now))
    && (!Needed(Parse(text).value, FromServer) && OutsideLog(Parse(text).value) ==>
          Alike(Default(Step(live, Parse(text).value, now)), Default(live)))
  }

  lemma NotStoredIsQuiet(log: seq<Entry>, live: Net, text: string, now: int)
    requires Sound(live) && ArrivesOk(log, live, text, now) && !Needed(Parse(text).value, FromServer)
    ensures Alike(Default(Step(live, Parse(text).value, now)), Default(live))
  {
    hide Sound, Alike, Accepts, Step, Needed, OutsideLog, StoresOk;
    ParseIsWellFormed(text);
    if !OutsideLog(Parse(text).value) { UnneededLeavesView(live, Parse(text).value, now); }
  }

  /** What the caller does next, one thing after the other. */
  ghost predicate DoingsOk(log: seq<Entry>, live: Net, ds: seq<Doing>)
    requires Sound(live)
    decreases |ds|
  {
    ds == [] ||
    match ds[0]
    case Ask(call) => !call.Store? && PlainCallOk(call) && DoingsOk(log, live, ds[1..])
    case Arrive(text, now) =>
      && ArrivesOk(log, live, text, now)
      && var l := Parse(text).value;
         DoingsOk(if Needed(l, FromServer) then log + [Entry(l, now)] else log, Step(live, l, now), ds[1..])
  }

  /** The calls it makes: a line is handled, then stored with the state that contains it. */
  ghost function CallsOf(log: seq<Entry>, live: Net, ds: seq<Doing>): (r: seq<Call>)
    requires Sound(live) && DoingsOk(log, live, ds)
    decreases |ds|
  {
    if ds == [] then []
    else
      match ds[0]
      case Ask(call) => [call] + CallsOf(log, live, ds[1..])
      case Arrive(text, now) =>
        var l := Parse(text).value;
        var next := if Needed(l, FromServer) then log + [Entry(l, now)] else log;
        [Store(l, FromServer, Step(live, l, now), now)] + CallsOf(next, Step(live, l, now), ds[1..])
  }

  /** One line stored: the linestack may be given it, and its fold goes on looking like the live state. */
  lemma ArrivalStores(s0: Net, log: seq<Entry>, live: Net, text: string, now: int)
    requires Replayable(s0, log) && Sound(live) && Alike(Default(live), StateAfter(s0, log, |log|))
    requires ArrivesOk(log, live, text, now) && Needed(Parse(text).value, FromServer)
    ensures var l, next := Parse(text).value, Step(live, Parse(text).value, now);
            && StoreOk(s0, log, l, FromServer, next, now) && Replayable(s0, log + [Entry(l, now)])
            && Alike(Default(next), StateAfter(s0, log + [Entry(l, now)], |log| + 1))
  {
    hide Sound, Alike, StateAfter, Replayable, Accepts, Step, Needed, Storable, LinesText, PrintNl, Writable, Distinct;
    hide Renames, PlainJoin, SnapshotOk, IsStored, CommandOf;
    var l, longer := Parse(text).value, log + [Entry(Parse(text).value, now)];
    ParsedIsReread(text);
    NeededIsStored(l, FromServer);
    AlikeAccepts(Default(live), StateAfter(s0, log, |log|), l);
    StoredGrows(s0, log, l, FromServer, now);
    PrefixStays(s0, log, Entry(l, now), |log|);
    ArrivalSeen(s0, longer, live, l, now, Step(live, l, now));
  }

  lemma ArrivalSeen(s0: Net, longer: seq<Entry>, live: Net, l: Line, now: int, next: Net)
    requires Replayable(s0, longer) && longer != [] && longer[|longer| - 1] == Entry(l, now)
    requires |l.args| >= 1 && Reread(l) == l && Sound(live) && Accepts(live, l) && next == Step(live, l, now)
    requires Alike(Default(live), StateAfter(s0, longer, |longer| - 1)) && SeenAlike(live, l, now)
    ensures Alike(Default(next), StateAfter(s0, longer, |longer|))
    ensures Distinct(Default(live)) && PlainJoin(Default(live), l) && !Renames(Default(live), l) ==>
            SnapshotOk(s0, longer, |longer| - 1, next)
  {
    hide Sound, Alike, StateAfter, Replayable, Accepts, Step, Distinct, Renames, PlainJoin, SnapshotOk, IsStored;
    hide CommandOf;
    hide PrintsColon, Recoverable;
    var k, before := |longer| - 1, Default(live);
    OneMore(s0, longer, k);
    StepAlike(before, StateAfter(s0, longer, k), l, now, now);
    AlikeTrans(Default(next), Step(before, l, now), StateAfter(s0, longer, k + 1));
    if Distinct(before) && PlainJoin(before, l) && !Renames(before, l) {
      ReplayableReads(s0, longer);
      ViewSnapshotOk(s0, longer, k, before, next);
    }
  }

  /** A caller that handles each line and then stores it may be served. */
  lemma {:induction false} LiveCallsOk(s0: Net, log: seq<Entry>, live: Net, ds: seq<Doing>)
    requires Replayable(s0, log) && Sound(live) && Alike(Default(live), StateAfter(s0, log, |log|))
    requires DoingsOk(log, live, ds)
    ensures CallsOk(s0, log, CallsOf(log, live, ds))
    decreases |ds|
  {
    hide Sound, Alike, StateAfter, Replayable, Accepts, Step, Needed, StoreOk, IsTime;
    if ds != [] {
      match ds[0] {
        case Ask(call) =>
          LiveCallsOk(s0, log, live, ds[1..]);
          CallsOkPlain(s0, log, call, CallsOf(log, live, ds[1..]));
        case Arrive(text, now) =>
          var l := Parse(text).value;
          var next := Step(live, l, now);
          if Needed(l, FromServer) {
            ArrivalStores(s0, log, live, text, now);
            var longer := log + [Entry(l, now)];
            LiveCallsOk(s0, longer, next, ds[1..]);
            CallsOkStored(s0, log, l, next, now, CallsOf(longer, next, ds[1..]));
          } else {
            NotStoredIsQuiet(log, live, text, now);
            AlikeTrans(Default(next), Default(live), StateAfter(s0, log, |log|));
            LiveCallsOk(s0, log, next, ds[1..]);
            CallsOkPlain(s0, log, Store(l, FromServer, next, now), CallsOf(log, next, ds[1..]));
          }
      }
    }
  }

  lemma CallsOkPlain(s0: Net, log: seq<Entry>, call: Call, rest: seq<Call>)
    requires Replayable(s0, log) && PlainCallOk(call) && !(call.Store? && Needed(call.line, call.dir))
    requires CallsOk(s0, log, rest)
    ensures CallsOk(s0, log, [call] + rest)
  {
    hide Replayable, Needed, StoreOk, PlainCallOk, Sound;
    assert ([call] + rest)[1..] == rest;
  }

  lemma CallsOkStored(s0: Net, log: seq<Entry>, l: Line, state: Net, now: int, rest: seq<Call>)
    requires Replayable(s0, log) && Needed(l, FromServer) && Sound(state) && StoreOk(s0, log, l, FromServer, state, now)
    requires Replayable(s0, log + [Entry(l, now)]) && CallsOk(s0, log + [Entry(l, now)], rest)
    ensures CallsOk(s0, log, [Store(l, FromServer, state, now)] + rest)
  {
    hide Replayable, Needed, Sound, SnapshotOk, Writable, Accepts, Storable, LinesText, PrintNl;
    assert ([Store(l, FromServer, state, now)] + rest)[1..] == rest;
  }

  /** The live state and the log after it all. */
  ghost function After(log: seq<Entry>, live: Net, ds: seq<Doing>): (r: (seq<Entry>, Net))
    requires Sound(live) && DoingsOk(log, live, ds)
    ensures Sound(r.1)
    decreases |ds|
  {
    if ds == [] then (log, live)
    else
      match ds[0]
      case Ask(call) => After(log, live, ds[1..])
      case Arrive(text, now) =>
        var l := Parse(text).value;
        After(if Needed(l, FromServer) then log + [Entry(l, now)] else log, Step(live, l, now), ds[1..])
  }

  /** The stored lines alone give what a snapshot of the live state shows. */
  lemma {:induction false} LiveIsFold(s0: Net, log: seq<Entry>, live: Net, ds: seq<Doing>)
    requires Replayable(s0, log) && Sound(live) && Alike(Default(live), StateAfter(s0, log, |log|))
    requires DoingsOk(log, live, ds)
    ensures var (longer, end) := After(log, live, ds);
            Replayable(s0, longer) && Alike(Default(end), StateAfter(s0, longer, |longer|))
    decreases |ds|
  {
    hide Sound, Alike, StateAfter, Replayable, Accepts, Step, Needed, StoreOk, IsTime;
    if ds != [] {
      match ds[0] {
        case Ask(call) =>
          LiveIsFold(s0, log, live, ds[1..]);
        case Arrive(text, now) =>
          var l := Parse(text).value;
          var next := Step(live, l, now);
          if Needed(l, FromServer) {
            ArrivalStores(s0, log, live, text, now);
            LiveIsFold(s0, log + [Entry(l, now)], next, ds[1..]);
          } else {
            NotStoredIsQuiet(log, live, text, now);
            AlikeTrans(Default(next), Default(live), StateAfter(s0, log, |log|));
            LiveIsFold(s0, log, next, ds[1..]);
          }
      }
    }
  }

  function Kept(c: Call): (r: seq<Entry>) {
    if c.Store? && Needed(c.line, c.dir) then [Entry(c.line, c.now)] else []
  }

  lemma {:induction false} LoggedCons(c: Call, calls: seq<Call>)
    ensures Logged([c] + calls) == Kept(c) + Logged(calls)
    decreases |calls|
  {
    var all := [c] + calls;
    if calls == [] {
      assert all == [c] && all[..0] == [];
      assert Kept(c) + [] == Kept(c) == [] + Kept(c);
    } else {
      var before, last := calls[..|calls| - 1], calls[|calls| - 1];
      assert all[..|all| - 1] == [c] + before && all[|all| - 1] == last;
      LoggedCons(c, before);
      assert Kept(c) + Logged(before) + Kept(last) == Kept(c) + (Logged(before) + Kept(last));
    }
  }

  lemma {:induction false} CallsLogged(log: seq<Entry>, live: Net, ds: seq<Doing>)
    requires Sound(live) && DoingsOk(log, live, ds)
    ensures log + Logged(CallsOf(log, live, ds)) == After(log, live, ds).0
    decreases |ds|
  {
    hide Sound, ArrivesOk, Accepts, Step, Needed, Logged, Parse;
    if ds == [] {
      assert Logged([]) == [] by { NothingLogged(); }
    } else {
      match ds[0] {
        case Ask(call) =>
          CallsLogged(log, live, ds[1..]);
          LoggedCons(call, CallsOf(log, live, ds[1..]));
          assert Kept(call) == [];
        case Arrive(text, now) =>
          ArrivesParses(log, live, text, now);
          var l := Parse(text).value;
          var next := if Needed(l, FromServer) then log + [Entry(l, now)] else log;
          var c, rest := Store(l, FromServer, Step(live, l, now), now), CallsOf(next, Step(live, l, now), ds[1..]);
          CallsLogged(next, Step(live, l, now), ds[1..]);
          LoggedCons(c, rest);
          KeptNext(log, c, Logged(rest));
      }
    }
  }

  lemma KeptNext(log: seq<Entry>, c: Call, more: seq<Entry>)
    ensures log + (Kept(c) + more) ==
            (if c.Store? && Needed(c.line, c.dir) then log + [Entry(c.line, c.now)] else log) + more
  {
    hide Needed;
  }

  lemma ArrivesParses(log: seq<Entry>, live: Net, text: string, now: int)
    requires Sound(live) && ArrivesOk(log, live, text, now)
    ensures Parse(text).Some? && Accepts(live, Parse(text).value)
  {}

  lemma NothingLogged()
    ensures Logged([]) == []
  {}

  /** A state rebuilt at the newest marker of `n` lines shows what `live` does. */
  ghost predicate NewestShows(os: seq<Outcome>, n: nat, live: Net) {
    forall x :: 0 <= x < |os| && os[x].State? && os[x].marker == os[x].count == n ==>
      os[x].state.Some? && Alike(os[x].state.value, Default(live))
  }

  /** The linestack of such a caller, from its creation on: every state it is given back is the fold of
      the lines before the marker, every traversal shows its range, and a state rebuilt at the newest
      marker shows what the live state does. */
  method UseLive(s0: Net, ghost ds: seq<Doing>, calls: seq<Call>) returns (c: LinestackContext, os: seq<Outcome>)
    requires Writable(s0) && Sound(s0) && DoingsOk([], s0, ds) && calls == CallsOf([], s0, ds)
    ensures fresh(c) && |os| == |calls| && Served(c, s0, calls, os)
    ensures c.log == After([], s0, ds).0 && NewestShows(os, |c.log|, After([], s0, ds).1)
  {
    LiveRunOk(s0, ds);
    c, os := Use(s0, calls);
    NewestIsLive(c, s0, ds, calls, os);
  }

  lemma NewestIsLive(c: LinestackContext, s0: Net, ds: seq<Doing>, calls: seq<Call>, os: seq<Outcome>)
    requires Writable(s0) && Sound(s0) && DoingsOk([], s0, ds) && calls == CallsOf([], s0, ds)
    requires Served(c, s0, calls, os) && |os| == |calls|
    ensures c.log == After([], s0, ds).0 && NewestShows(os, |c.log|, After([], s0, ds).1)
  {
    hide Sound, Writable, Alike, DoingsOk, CallsOf, CallsOk, InUse, StateAfter, RightLists, After, Logged, Replayable;
    GoodStarts(s0);
    NothingStored(s0);
    AlikeRefl(Default(s0));
    LiveIsFold(s0, [], s0, ds);
    CallsLogged([], s0, ds);
    assert calls[..|calls|] == calls && [] + Logged(calls) == Logged(calls);
    var log, live := c.log, Default(After([], s0, ds).1);
    forall x | 0 <= x < |os| && os[x].State? && os[x].marker == os[x].count == |log|
      ensures os[x].state.Some? && Alike(os[x].state.value, live)
    {
      assert Right(s0, log, c.snaps, os[x]);
      Symmetric(live, StateAfter(s0, log, |log|));
      AlikeTrans(os[x].state.value, StateAfter(s0, log, |log|), live);
    }
  }

  lemma LiveRunOk(s0: Net, ds: seq<Doing>)
    requires Writable(s0) && Sound(s0) && DoingsOk([], s0, ds)
    ensures RunOk(s0, CallsOf([], s0, ds))
  {
    hide Sound, Writable, Alike, DoingsOk, CallsOf, CallsOk, Good;
    GoodStarts(s0);
    NothingStored(s0);
    AlikeRefl(Default(s0));
    LiveCallsOk(s0, [], s0, ds);
  }

  lemma NothingStored(s0: Net)
    requires Replayable(s0, [])
    ensures StateAfter(s0, [], 0) == Default(s0)
  {
    hide Sound;
    assert Events([], 0, 0) == [];
  }
}
