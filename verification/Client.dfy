/** A connected client with its shadow of the network state, and the synthetic netsplit of
    libirc/client.c: one QUIT for every nick the client knows. */
module Client {
  import opened Base
  import opened Casemap
  import opened Info
  import opened Line
  import opened State
  import opened Handlers
  import opened Unique
  import opened Graph
  import opened Network

  // -------------------------------------------------------------------- QUIT on values

  /** client_send_nick_quit: a nick without a known hostmask gets a made-up one. */
  function QuitOrigin(n: Nick): (r: string) {
    if n.hostmask.Some? then n.hostmask.value else n.nick + "!~UNKNOWN@UNKNOWN"
  }

  function QuitLine(n: Nick, reason: string): (l: Line) { Line(Some(QuitOrigin(n)), ["QUIT", reason], ColonUnknown) }

  function QuitLines(ns: seq<Nick>, reason: string): (r: seq<Line>)
    ensures |r| == |ns| && forall k :: 0 <= k < |r| ==> r[k] == QuitLine(ns[k], reason)
  {
    seq(|ns|, k requires 0 <= k < |ns| => QuitLine(ns[k], reason))
  }

  /** Everybody's QUIT names its owner and nobody else. */
  predicate Splittable(s: Net) {
    && DistinctNames(s.info.casemapping, PeopleNames(s.people))
    && forall k :: 1 <= k < |s.people| ==> Eq(s.info, s.people[k].nick, NickPart(QuitOrigin(s.people[k])))
  }

  /** The invariants of whole runs make a state splittable. */
  lemma UniqueIsSplittable(s: Net)
    requires Distinct(s) && MasksOk(s) && forall k :: 1 <= k < |s.people| ==> '!' !in s.people[k].nick
    ensures Splittable(s)
  {
    forall k | 1 <= k < |s.people|
      ensures NickPart(QuitOrigin(s.people[k])) == s.people[k].nick
    {
      var n := s.people[k];
      if n.hostmask.None? {
        assert QuitOrigin(n) == n.nick + "!" + "~UNKNOWN@UNKNOWN";
        NickPartClean(QuitOrigin(n));
      }
    }
  }

  lemma QuitIs(s: Net, l: Line, now: int)
    requires Sound(s) && l.origin.Some? && l.args != [] && l.args[0] == "QUIT"
    ensures Accepts(s, l) && Step(s, l, now) == Quit(s, NickPart(l.origin.value))
  {
    hide Sound, Quit;
    QuitIsQuit();
  }

  lemma QuitIsQuit()
    ensures CommandNamed("QUIT") == QUIT
  {
    AsciiNe("JOIN", "QUIT");
    AsciiNe("PART", "QUIT");
    AsciiNe("KICK", "QUIT");
    AsciiEqRefl("QUIT");
  }

  /** The QUIT of the first listed nick removes it and nothing else from the list. */
  lemma QuitHead(s: Net, reason: string, now: int)
    requires Sound(s) && Splittable(s) && |s.people| >= 2
    ensures Accepts(s, QuitLine(s.people[1], reason))
    ensures var r := Step(s, QuitLine(s.people[1], reason), now);
            r.people == [s.people[0]] + s.people[2..] && r.info == s.info && Splittable(r)
  {
    var l := QuitLine(s.people[1], reason);
    hide Step, Accepts, Sound, ForgetPerson, DistinctNames;
    QuitIs(s, l, now);
    PersonIsFound(s, 1, NickPart(l.origin.value));
    ForgetFirst(s);
    var r := Step(s, l, now);
    assert forall k :: 1 <= k < |r.people| ==> r.people[k] == s.people[k + 1];
  }

  lemma ForgetFirst(s: Net)
    requires Sound(s) && |s.people| >= 2
    ensures var r := ForgetPerson(s, 1);
            && r.people == [s.people[0]] + s.people[2..] && r.info == s.info
            && (DistinctNames(s.info.casemapping, PeopleNames(s.people)) ==>
                DistinctNames(r.info.casemapping, PeopleNames(r.people)))
  {
    var r := ForgetPerson(s, 1);
    assert r.people == Without(s.people, 1) == [s.people[0]] + s.people[2..];
    assert PeopleNames(r.people) == Without(PeopleNames(s.people), 1);
  }

  lemma PrefixOfSent(before: seq<Line>, all: seq<Line>, n: nat)
    requires n <= |all|
    ensures before <= before + all[..n] <= before + all && before + all[..|all|] == before + all
  {
    assert all[..|all|] == all;
  }

  /** The loop of client_send_netsplit moves on exactly when the QUIT it sends resolves to
      somebody listed; otherwise it would send the same line again. */
  lemma NetsplitAdvancesIff(s: Net, reason: string, now: int)
    requires Sound(s) && |s.people| >= 2
    ensures var l := QuitLine(s.people[1], reason);
            var k := FindPerson(s, NickPart(l.origin.value));
            && Accepts(s, l)
            && (|Step(s, l, now).people| < |s.people| <==> 1 <= k < |s.people|)
            && (!(1 <= k < |s.people|) ==> Step(s, l, now).people == s.people)
  {
    hide Step, Accepts;
    QuitIs(s, QuitLine(s.people[1], reason), now);
  }

  /** The netsplit comes to an end: nobody is listed, or the QUIT for the first one listed makes the
      list shorter and the rest comes to an end. */
  predicate Ends(s: Net, reason: string, now: int)
    requires Sound(s)
    decreases |s.people|
  {
    |s.people| < 2 ||
    (QuitAccepted(s, reason) && |QuitFirst(s, reason, now).people| < |s.people| &&
     Ends(QuitFirst(s, reason, now), reason, now))
  }

  predicate QuitAccepted(s: Net, reason: string)
    requires Sound(s)
  {
    |s.people| >= 2 && Accepts(s, QuitLine(s.people[1], reason))
  }

  function QuitFirst(s: Net, reason: string, now: int): (r: Net)
    requires Sound(s) && QuitAccepted(s, reason)
    ensures Sound(r)
  {
    Step(s, QuitLine(s.people[1], reason), now)
  }

  lemma QuitFirstIs(s: Net, reason: string, now: int)
    requires Sound(s) && |s.people| >= 2
    ensures QuitAccepted(s, reason) && QuitFirst(s, reason, now) == Quit(s, NickPart(QuitOrigin(s.people[1])))
  {
    hide Step, Accepts, Sound, Quit;
    QuitIs(s, QuitLine(s.people[1], reason), now);
  }

  /** A QUIT that takes somebody else away leaves the first one listed unable to answer ever after. */
  lemma WrongQuitSticks(s: Net, reason: string, now: int)
    requires Sound(s) && Distinct(s) && |s.people| >= 2
    requires FindPerson(s, NickPart(QuitOrigin(s.people[1]))) != 1
    ensures !Ends(s, reason, now)
  {
    hide Step, Accepts, Distinct;
    var name := NickPart(QuitOrigin(s.people[1]));
    var k, r := FindPerson(s, name), Quit(s, name);
    QuitFirstIs(s, reason, now);
    if 2 <= k < |s.people| {
      QuitKeeps(s, name);
      GoneForGood(s, k, name);
      QuitFirstIs(r, reason, now);
      assert QuitFirst(r, reason, now) == r;
    }
  }

  lemma GoneForGood(s: Net, k: nat, name: string)
    requires Sound(s) && Distinct(s) && 2 <= k == FindPerson(s, name) < |s.people|
    ensures var r := ForgetPerson(s, k);
            r.people == Without(s.people, k) && r.people[1] == s.people[1] && FindPerson(r, name) == |r.people|
  {
    var r, a := ForgetPerson(s, k), PeopleNames(s.people);
    var b := PeopleNames(r.people);
    assert r.people == Without(s.people, k);
    forall x | 0 <= x < |b|
      ensures !Same(s.info.casemapping, b[x], name)
    {
      var y := if x < k then x else x + 1;
      assert b[x] == a[y] && Same(s.info.casemapping, a[k], name);
      assert !Same(s.info.casemapping, a[if y < k then y else k], a[if y < k then k else y]);
    }
  }

  /** The people behind the first one listed answer as before. */
  lemma RestSplittable(s: Net)
    requires Sound(s) && Distinct(s) && |s.people| >= 2
    requires Eq(s.info, s.people[1].nick, NickPart(QuitOrigin(s.people[1])))
    ensures Splittable(s) <==> Splittable(ForgetPerson(s, 1))
  {
    DistinctPeople(s);
    ForgetFirst(s);
    hide ForgetPerson, DistinctNames, Sound, Distinct;
    var r := ForgetPerson(s, 1);
    assert forall k :: 1 <= k < |r.people| ==> r.people[k] == s.people[k + 1];
    assert forall k :: 2 <= k < |s.people| ==> s.people[k] == r.people[k - 1];
  }

  /** client_send_netsplit comes to an end, for a client with distinct names, if and only if every
      QUIT it would send names its own nick. */
  lemma {:induction false} NetsplitEndsIff(s: Net, reason: string, now: int)
    requires Sound(s) && Distinct(s)
    ensures Ends(s, reason, now) <==> Splittable(s)
    decreases |s.people|
  {
    hide Step, Accepts, Sound, Distinct, Quit;
    DistinctPeople(s);
    if |s.people| >= 2 {
      var name := NickPart(QuitOrigin(s.people[1]));
      QuitFirstIs(s, reason, now);
      HeadAnswersIff(s);
      if FindPerson(s, name) == 1 {
        QuitKeeps(s, name);
        QuitIsForget(s, name);
        ForgetFirst(s);
        RestSplittable(s);
        NetsplitEndsIff(ForgetPerson(s, 1), reason, now);
      } else {
        WrongQuitSticks(s, reason, now);
      }
    }
  }

  lemma QuitIsForget(s: Net, name: string)
    requires Sound(s) && |s.people| >= 2 && FindPerson(s, name) == 1
    ensures Quit(s, name) == ForgetPerson(s, 1)
  {}

  lemma HeadAnswersIff(s: Net)
    requires Sound(s) && Distinct(s) && |s.people| >= 2
    ensures var name := NickPart(QuitOrigin(s.people[1]));
            FindPerson(s, name) == 1 <==> Eq(s.info, s.people[1].nick, name)
  {
    var name := NickPart(QuitOrigin(s.people[1]));
    DistinctPeople(s);
    if Eq(s.info, s.people[1].nick, name) { PersonIsFound(s, 1, name); }
    assert FindPerson(s, name) == 1 ==> Same(s.info.casemapping, PeopleNames(s.people)[1], name);
  }

  // ------------------------------------------------------------------------ the client

  lemma HeadOfNicks(h: Heap, info: Info, away: bool)
    requires Graph.Readable(h)
    ensures var s := Flat(h, info, away);
            |s.people| == |h.nicks| + 1 &&
                (h.nicks != [] ==> h.nicks[0] in h.nick && s.people[1] == h.nick[h.nicks[0]].data)
  {
    assert h.nicks != [] ==> People(h)[1] == h.nicks[0];
  }

  class IrcClient {
    const state: NetworkState
    var connected: bool
    var sent: seq<Line>

    constructor (state: NetworkState)
      ensures this.state == state && connected && sent == []
    {
      this.state, connected, sent := state, true, [];
    }

    /** client_send_line: the shadow state handles the line before the transport has it, and the
        transport may refuse. */
    method SendLine(l: Line, now: int) returns (ok: bool)
      requires state.Valid() && Accepts(state.Value(), l)
      modifies this`sent, state
      ensures state.Valid() && (!connected ==> !ok && sent == old(sent) && state.Value() == old(state.Value()))
      ensures connected ==> sent == old(sent) + [l] && state.Value() == Step(old(state.Value()), l, now)
    {
      if !connected { return false; }
      state.Handle(l, now);
      sent := sent + [l];
      ok := *;
    }

    /** client_send_nick_quit for the first listed nick. */
    method SendFirstQuit(reason: string, now: int) returns (ok: bool)
      requires connected && state.Valid() && Splittable(state.Value()) && state.nicks != []
      modifies this`sent, state
      ensures state.Valid() && Splittable(state.Value()) && |state.nicks| == old(|state.nicks|) - 1
      ensures |old(state.Value()).people| >= 2
      ensures state.Value().people == [old(state.Value()).people[0]] + old(state.Value()).people[2..]
      ensures sent == old(sent) + [QuitLine(old(state.Value()).people[1], reason)]
    {
      hide Linked, Sound, Flat, Accepts, Step, Splittable, QuitLine;
      HeadOfNicks(state.Mem(), state.info, state.away);
      QuitHead(state.Value(), reason, now);
      ok := SendLine(QuitLine(state.nick[state.nicks[0]].data, reason), now);
      HeadOfNicks(state.Mem(), state.info, state.away);
    }

    /** client_send_netsplit: one QUIT per listed nick, in list order, until nobody is listed or
        a send fails. */
    method SendNetsplit(reason: string, now: int) returns (ok: bool)
      requires connected && state.Valid() && Splittable(state.Value())
      modifies this`sent, state
      ensures state.Valid()
      ensures ok ==> sent == old(sent) + QuitLines(old(state.Value().people[1..]), reason)
      ensures ok ==> state.nicks == [] && state.Value().people == [old(state.Value().people[0])]
      ensures !ok ==> old(sent) <= sent <= old(sent) + QuitLines(old(state.Value().people[1..]), reason)
    {
      hide Linked, Sound, Flat, Splittable, QuitLine;
      ghost var s := state.Value();
      HeadOfNicks(state.Mem(), state.info, state.away);
      ghost var all := QuitLines(s.people[1..], reason);
      ok := true;
      PrefixOfSent(sent, all, 0);
      ghost var n := 0;
      while state.nicks != []
        invariant state.Valid() && Splittable(state.Value()) && ok
        invariant n < |s.people| && |state.Value().people| == |state.nicks| + 1
        invariant state.Value().people == [s.people[0]] + s.people[n + 1..]
        invariant sent == old(sent) + all[..n]
        decreases |state.nicks|
      {
        OneMoreQuit(old(sent), s.people, n, reason);
        ok := SendFirstQuit(reason, now);
        n := n + 1;
        PrefixOfSent(old(sent), all, n);
        if !ok { return; }
      }
    }
  }

  lemma OneMoreQuit(before: seq<Line>, people: seq<Nick>, n: nat, reason: string)
    requires 1 <= |people| && n + 1 < |people|
    ensures var all, rest := QuitLines(people[1..], reason), [people[0]] + people[n + 1..];
            && |rest| >= 2 && before + all[..n + 1] == before + all[..n] + [QuitLine(rest[1], reason)]
            && [rest[0]] + rest[2..] == [people[0]] + people[n + 2..]
  {
    hide QuitLine;
    var all := QuitLines(people[1..], reason);
    assert all[..n + 1] == all[..n] + [all[n]];
  }
}
