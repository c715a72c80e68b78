/** libirc/transport_ioc.c: sending lines over a channel that may block. The channel answers each
    write as it likes; lines that it does not take yet wait in a queue for a write watch. */
module Transport {
  import opened Base
  import opened Line

  /** GIOStatus. */
  datatype Status = Normal | Again | Failed | Eof

  /** Flushing never answers EOF. */
  type Flushed = s: Status | s != Eof witness Normal

  /** A write and the channel's answer. */
  datatype Attempt = Attempt(line: Line, answer: Status)

  /** The lines that drew a given answer, in order. */
  function Drew(log: seq<Attempt>, answers: set<Status>): (r: seq<Line>) {
    if log == [] then []
    else Drew(log[..|log| - 1], answers) + if log[|log| - 1].answer in answers then [log[|log| - 1].line] else []
  }

  /** The lines on the wire. */
  function Written(log: seq<Attempt>): (r: seq<Line>) { Drew(log, {Normal}) }

  /** Every answer but AGAIN is the last a line gets. */
  function Settled(log: seq<Attempt>): (r: seq<Line>) { Drew(log, {Normal, Failed, Eof}) }

  predicate Answered(log: seq<Attempt>, s: Status) { exists k :: 0 <= k < |log| && log[k].answer == s }

  lemma DrewSnoc(log: seq<Attempt>, a: Attempt, answers: set<Status>)
    ensures Drew(log + [a], answers) == Drew(log, answers) + if a.answer in answers then [a.line] else []
  {
    assert (log + [a])[..|log|] == log;
  }

  /** Where no write draws an error or EOF, everything settled is on the wire. */
  lemma {:induction false} NothingRefused(log: seq<Attempt>)
    requires !Answered(log, Failed) && !Answered(log, Eof)
    ensures Settled(log) == Written(log)
  {
    if log != [] {
      var rest := log[..|log| - 1];
      assert forall k :: 0 <= k < |rest| ==> rest[k] == log[k];
      assert log[|log| - 1].answer != Failed && log[|log| - 1].answer != Eof;
      NothingRefused(rest);
    }
  }

  /** A line is on the wire for every NORMAL and lost for every error or EOF: the settled lines are
      the written ones and the lost ones. */
  lemma {:induction false} SettledSplits(log: seq<Attempt>)
    ensures multiset(Settled(log)) == multiset(Written(log)) + multiset(Drew(log, {Failed, Eof}))
  {
    if log != [] {
      SettledSplits(log[..|log| - 1]);
    }
  }

  /** The channel: an adversary whose answers are on record. */
  class IoChannel {
    ghost var log: seq<Attempt>
    ghost var flushes: seq<Flushed>

    constructor ()
      ensures log == [] && flushes == []
    {
      log, flushes := [], [];
    }

    /** irc_send_line. */
    method Write(l: Line) returns (answer: Status)
      modifies this`log
      ensures log == old(log) + [Attempt(l, answer)]
    {
      answer := *;
      log := log + [Attempt(l, answer)];
    }

    /** g_io_channel_flush. */
    method Flush() returns (answer: Flushed)
      modifies this`flushes
      ensures flushes == old(flushes) + [answer]
    {
      answer := *;
      flushes := flushes + [answer];
    }
  }

  /** A line that was told to try again is offered again next. */
  ghost predicate Retried(log: seq<Attempt>, pending: seq<Line>) {
    && (forall k :: 0 <= k < |log| - 1 && log[k].answer == Again ==> log[k + 1].line == log[k].line)
    && (log != [] && log[|log| - 1].answer == Again ==> pending != [] && pending[0] == log[|log| - 1].line)
  }

  /** The lines handed over, in order, are those the channel has settled and those pending. */
  ghost predicate Accounted(handed: seq<Line>, log: seq<Attempt>, pending: seq<Line>) {
    handed == Settled(log) + pending && Retried(log, pending)
  }

  lemma AccountedPush(handed: seq<Line>, log: seq<Attempt>, pending: seq<Line>, l: Line)
    requires Accounted(handed, log, pending)
    ensures Accounted(handed + [l], log, pending + [l])
  {
    assert Settled(log) + (pending + [l]) == Settled(log) + pending + [l];
  }

  /** The first pending line is offered: AGAIN leaves it where it is, any other answer settles it. */
  lemma AccountedOffer(handed: seq<Line>, log: seq<Attempt>, pending: seq<Line>, answer: Status)
    requires Accounted(handed, log, pending) && pending != []
    ensures Accounted(handed, log + [Attempt(pending[0], answer)], if answer == Again then pending else pending[1..])
  {
    var a := Attempt(pending[0], answer);
    DrewSnoc(log, a, {Normal, Failed, Eof});
    assert pending == [pending[0]] + pending[1..];
    assert Settled(log) + [pending[0]] + pending[1..] == Settled(log) + pending;
  }

  /** What happened in a drain: the answers since `old`. */
  function Since<T>(before: seq<T>, now: seq<T>): (r: seq<T>)
    requires before <= now
  {
    now[|before|..]
  }

  datatype Happening = Sent(line: Line) | Writable | Closed

  class IoTransport {
    const channel: IoChannel
    var pendingLines: seq<Line>
    var watching: bool
    var pendingDisconnect: bool
    var open: bool
    var hungUp: bool
    ghost var handed: seq<Line>

    /** No line is lost but to an answer of the channel. Until it answers EOF, no line waits without
        a watch, and the channel is closed only with nothing left to write. */
    ghost predicate Valid()
      reads this, channel
    {
      && Accounted(handed, channel.log, pendingLines)
      && (hungUp <==> Answered(channel.log, Eof))
      && (!hungUp ==>
            && (!watching ==> pendingLines == [])
            && (!open ==> pendingLines == [] && !watching)
            && (pendingDisconnect && open ==> watching))
    }

    constructor (channel: IoChannel)
      requires channel.log == []
      ensures Valid() && this.channel == channel && open && !pendingDisconnect && !hungUp
      ensures handed == pendingLines == []
    {
      this.channel := channel;
      pendingLines, watching, pendingDisconnect, open, hungUp, handed := [], false, false, true, false, [];
    }

    predicate IsConnected()
      reads this
    {
      open && !pendingDisconnect
    }

    /** A write of the first pending line; any answer but AGAIN takes it off the queue. */
    method OfferHead() returns (answer: Status)
      requires pendingLines != [] && Accounted(handed, channel.log, pendingLines)
      modifies this`pendingLines, channel`log
      ensures Accounted(handed, channel.log, pendingLines)
      ensures channel.log == old(channel.log) + [Attempt(old(pendingLines)[0], answer)]
      ensures pendingLines == if answer == Again then old(pendingLines) else old(pendingLines)[1..]
      ensures forall s :: Answered(channel.log, s) <==> Answered(old(channel.log), s) || answer == s
    {
      hide Accounted, Answered;
      var l := pendingLines[0];
      answer := channel.Write(l);
      AccountedOffer(handed, old(channel.log), pendingLines, answer);
      AnsweredSnoc(old(channel.log), Attempt(l, answer));
      if answer != Again { pendingLines := pendingLines[1..]; }
    }

    /** irc_transport_iochannel_send_line: queued behind what is pending, or offered to the channel at
        once; FALSE exactly when the channel answers the line with an error or EOF, or the flush fails. */
    method SendLine(l: Line) returns (ok: bool, ghost answer: Option<Status>, ghost flush: Option<Flushed>)
      requires Valid() && open && !hungUp
      modifies this`pendingLines, this`watching, this`hungUp, this`handed, channel
      ensures Valid() && handed == old(handed) + [l]
      ensures answer.None? <==> old(watching)
      ensures answer.None? ==> channel.log == old(channel.log) && pendingLines == old(pendingLines) + [l]
      ensures answer.Some? ==>
                channel.log == old(channel.log) + [Attempt(l, answer.value)] &&
                    pendingLines == if answer == Some(Again) then [l] else []
      ensures channel.flushes == old(channel.flushes) + if flush.Some? then [flush.value] else []
      ensures flush.Some? <==> answer == Some(Normal) || answer == Some(Again)
      ensures hungUp <==> answer == Some(Eof)
      ensures !ok <==> answer == Some(Failed) || answer == Some(Eof) || flush == Some(Failed)
    {
      hide Accounted, Answered;
      answer, flush := None, None;
      AccountedPush(handed, channel.log, pendingLines, l);
      handed, pendingLines := handed + [l], pendingLines + [l];
      if watching { return true, None, None; }
      var status := OfferHead();
      answer := Some(status);
      if status == Eof {
        hungUp := true;
        return false, answer, None;
      }
      if status == Failed { return false, answer, None; }
      if status == Again { watching := true; }
      var flushed := channel.Flush();
      if flushed == Again { watching := true; }
      return flushed != Failed, answer, Some(flushed);
    }

    /** irc_transport_iochannel_disconnect. */
    method Disconnect()
      requires Valid() && open && !hungUp
      modifies this`pendingDisconnect, this`open
      ensures Valid() && !IsConnected() && (open <==> watching) && (!open ==> pendingLines == [])
    {
      pendingDisconnect := true;
      if !watching { open := false; }
    }

    /** transport_send_queue, called by the write watch: pending lines are offered from the head until
        the channel says to try again or answers EOF; TRUE keeps the watch. A drain that is never told
        to try again empties the queue; each drain ends. */
    method SendQueue() returns (again: bool)
      requires Valid() && open && watching && !hungUp
      modifies this`pendingLines, this`watching, this`open, this`hungUp, channel
      ensures Valid() && old(channel.log) <= channel.log && old(channel.flushes) <= channel.flushes
      ensures !hungUp ==> again == watching && (again ==> open)
      ensures var log, flushes := Since(old(channel.log), channel.log), Since(old(channel.flushes), channel.flushes);
              && (again ==> Answered(log, Again) || Again in flushes)
              && (!hungUp && !Answered(log, Again) && Again !in flushes ==>
                  pendingLines == [] && (pendingDisconnect <==> !open))
    {
      hide Accounted, Answered;
      again := false;
      var flushed := channel.Flush();
      if flushed == Again { again := true; }
      while pendingLines != []
        invariant Valid() && !hungUp && watching && open
        invariant old(channel.log) <= channel.log && old(channel.flushes) <= channel.flushes
        invariant again <==> Again in Since(old(channel.flushes), channel.flushes)
        decreases |pendingLines|
      {
        ghost var before := channel.flushes;
        var status := OfferHead();
        if status == Again {
          LastAnswer(old(channel.log), channel.log, Again);
          return true;
        }
        if status == Eof {
          watching, hungUp := false, true;
          return false;
        }
        flushed := channel.Flush();
        SinceSnoc(old(channel.flushes), before, flushed);
        if flushed == Again { return true; }
      }
      if !again {
        watching := false;
        if pendingDisconnect { open := false; }
      }
    }

    /** Any interleaving of sends, callbacks and disconnects; what cannot happen in the state it finds
        is skipped. The lines handed over are, in order, those the channel has settled, followed by
        those pending; without an error or EOF, those on the wire and those pending. */
    method Run(hs: seq<Happening>) returns (ghost taken: seq<Line>)
      requires Valid()
      modifies this, channel
      ensures Valid() && handed == old(handed) + taken
      ensures handed == Settled(channel.log) + pendingLines
      ensures !Answered(channel.log, Failed) && !hungUp ==> handed == Written(channel.log) + pendingLines
      ensures !hungUp && !watching ==> pendingLines == []
    {
      var x := 0;
      taken := [];
      while x < |hs|
        invariant x <= |hs| && Valid() && handed == old(handed) + taken
      {
        if open && !hungUp {
          match hs[x] {
            case Sent(l) =>
              var ok, answer, flush := SendLine(l);
              taken := taken + [l];
            case Writable =>
              if watching {
                var again := SendQueue();
              }
            case Closed =>
              Disconnect();
          }
        }
        x := x + 1;
      }
      if !Answered(channel.log, Failed) && !hungUp { NothingRefused(channel.log); }
    }
  }

  lemma AnsweredSnoc(log: seq<Attempt>, a: Attempt)
    ensures forall s :: Answered(log + [a], s) <==> Answered(log, s) || a.answer == s
  {
    forall s
      ensures Answered(log + [a], s) <==> Answered(log, s) || a.answer == s
    {
      assert (log + [a])[|log|] == a;
      assert forall k :: 0 <= k < |log| ==> (log + [a])[k] == log[k];
    }
  }

  lemma LastAnswer(before: seq<Attempt>, now: seq<Attempt>, s: Status)
    requires before <= now && |before| < |now| && now[|now| - 1].answer == s
    ensures Answered(Since(before, now), s)
  {
    var r := Since(before, now);
    assert r[|r| - 1] == now[|now| - 1];
  }

  lemma SinceSnoc<T>(before: seq<T>, now: seq<T>, x: T)
    requires before <= now
    ensures before <= now + [x] && Since(before, now + [x]) == Since(before, now) + [x]
  {}
}
