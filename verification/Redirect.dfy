/** libirc/redirect.c and src/redirect.c: which client a numeric reply belongs to. */
module Redirect {
  import opened Base
  import opened Casemap
  import opened Line

  /** struct query: replies in between, replies that end the answer, and errors. */
  datatype Query = Query(name: string, replies: seq<int>, ends: seq<int>, errors: seq<int>)

  const QUERIES1: seq<Query> := [
    Query("WHOIS", [311, 319, 301, 317, 319, 307, 312, 313, 338, 275, 330, 320, 308, 309, 326, 401],
          [318, 263], [402, 431]),
    Query("WHO", [352, 354],
          [315, 263], [402]),
    Query("NAMES", [353],
          [366, 263], [416, 402]),
    Query("LIST", [322, 321],
          [323, 263], [416, 402]),
    Query("TOPIC", [],
          [331, 332, 263], [442, 461, 482, 477]),
    Query("WHOWAS", [314, 312, 330, 406],
          [369, 263], [431]),
    Query("STATS", [213, 215, 217, 249, 211, 212, 244, 214, 216, 241, 242, 243, 250],
          [263, 219], [402]),
    Query("VERSION", [],
          [351, 263], [402])]

  const QUERIES2: seq<Query> := [
    Query("LINKS", [364],
          [365, 263], [402]),
    Query("TIME", [],
          [391, 263], [402]),
    Query("TRACE", [200, 201, 203, 205, 209, 202, 204, 206, 208],
          [263], [402]),
    Query("SUMMON", [],
          [342, 263], [411, 424, 444, 402]),
    Query("USERS", [392, 393, 395],
          [394, 263], [402, 424, 446]),
    Query("USERHOST", [],
          [302, 263], [461]),
    Query("ISON", [],
          [303, 263], [461]),
    Query("JOIN", [],
          [263], [461, 474, 473, 475, 471, 476, 470, 403, 479, 405])]

  const QUERIES3: seq<Query> := [
    Query("PART", [],
          [263], [461, 403, 442]),
    Query("NICK", [],
          [263], [431, 432, 433, 437, 484, 436, 438]),
    Query("PASS", [],
          [], [461, 462]),
    Query("USER", [],
          [263], [461, 462]),
    Query("QUIT", [],
          [263], []),
    Query("OPER", [],
          [381, 263], [461, 491, 464]),
    Query("MODE", [367, 348, 346],
          [221, 324, 368, 349, 347, 325, 263], [461, 501, 502, 441, 467, 482, 472, 477, 403, 479]),
    Query("SERVICE", [],
          [383, 2, 4, 263], [462, 461, 432])]

  const QUERIES4: seq<Query> := [
    Query("SQUIT", [],
          [263], [481, 461, 402]),
    Query("INVITE", [],
          [341, 301, 263], [461, 442, 401, 482, 443]),
    Query("KICK", [],
          [263], [461, 476, 441, 403, 482, 442]),
    Query("PRIVMSG", [],
          [301, 263], [411, 412, 404, 413, 407, 414, 401, 403, 505]),
    Query("NICKSERV", [],
          [263], [412]),
    Query("CHANSERV", [],
          [263], [412]),
    Query("MOTD", [375, 372],
          [376, 263], [422]),
    Query("LUSERS", [251, 252, 253, 254, 255, 250],
          [263], [402])]

  const QUERIES5: seq<Query> := [
    Query("CONNECT", [],
          [263], [402, 461, 481]),
    Query("ADMIN", [256, 258, 257, 259],
          [263], [402]),
    Query("INFO", [371],
          [263, 374], [402]),
    Query("SERVLIST", [234],
          [263, 235], []),
    Query("SQUERY", [],
          [301, 263], [411, 412, 404, 413, 407, 414, 401]),
    Query("KILL", [],
          [263], [481, 461, 401, 483]),
    Query("AWAY", [],
          [305, 306, 263], []),
    Query("REHASH", [],
          [382, 263], [481])]

  const QUERIES6: seq<Query> := [
    Query("DIE", [],
          [263], [481]),
    Query("RESTART", [],
          [263], [481]),
    Query("PING", [],
          [263], [409]),
    Query("WALLOPS", [],
          [263], [461]),
    Query("PONG", [],
          [263], [409, 402]),
    Query("NOTICE", [],
          [263], []),
    Query("AUTH", [],
          [263], [461, 909, 462, 910, 911, 900, 912]),
    Query("CAPAB", [],
          [290], [461])]

  const QUERIES: seq<Query> := QUERIES1 + QUERIES2 + QUERIES3 + QUERIES4 + QUERIES5 + QUERIES6

  const UNKNOWN: Query := Query("", [], [263], [421])

  predicate Accepting(q: Query, n: int) { n in q.replies || n in q.errors || n in q.ends }

  /** A numeric that is no part of any answer to the query: no reply in between, no end, no error. */
  predicate Foreign(q: Query, n: int) { n !in q.replies && n !in q.ends && n !in q.errors }

  /** Nobody on the stack asked for it before the `k`-th entry. */
  predicate NobodyBefore(es: seq<Asked>, k: nat, n: int)
    requires k <= |es|
  {
    forall j :: 0 <= j < k ==> Foreign(es[j].query, n)
  }

  /** struct query_stack_entry; the proxy's own queries have no client. */
  datatype Asked = Asked(query: Query, client: Option<nat>, time: int)

  function Clients(es: seq<Asked>): (r: seq<Option<nat>>)
    ensures |r| == |es| && forall k :: 0 <= k < |r| ==> r[k] == es[k].client
  {
    seq(|es|, k requires 0 <= k < |es| => es[k].client)
  }

  /** irc_line_respcode. */
  function Respcode(l: Line): (n: int) { if l.args == [] then 0 else Atoi(l.args[0]) }

  // ------------------------------------------------------------------- value level

  /** The oldest entry that accepts a numeric. */
  function Oldest(es: seq<Asked>, n: int): (k: nat)
    ensures k <= |es|
    ensures forall j :: 0 <= j < k ==> !Accepting(es[j].query, n)
    ensures k < |es| ==> Accepting(es[k].query, n)
  {
    if es == [] || Accepting(es[0].query, n) then 0 else 1 + Oldest(es[1..], n)
  }

  /** query_stack_match_response on the entries. */
  function Matched(es: seq<Asked>, n: int): (r: seq<Asked>) {
    var k := Oldest(es, n);
    if k == |es| || n in es[k].query.replies then es else Without(es, k)
  }

  function MatchedAll(es: seq<Asked>, ns: seq<int>): (r: seq<Asked>)
    decreases |ns|
  {
    if ns == [] then es else MatchedAll(Matched(es, ns[0]), ns[1..])
  }

  lemma OldestIs(es: seq<Asked>, n: int, k: nat)
    requires k <= |es| && (forall j :: 0 <= j < k ==> !Accepting(es[j].query, n))
    requires k < |es| ==> Accepting(es[k].query, n)
    ensures Oldest(es, n) == k
  {}

  /** A reply in between, an end or an error goes to the oldest entry it is part of an answer to; only
      a reply in between leaves that entry on the stack. A numeric that is part of no answer moves
      nothing. */
  lemma RoutedByLists(es: seq<Asked>, n: int, k: nat)
    requires k <= |es| && NobodyBefore(es, k, n)
    ensures k < |es| && n in es[k].query.replies ==> Oldest(es, n) == k && Matched(es, n) == es
    ensures k < |es| && (n in es[k].query.ends || n in es[k].query.errors) && n !in es[k].query.replies ==>
              Oldest(es, n) == k && Matched(es, n) == Without(es, k)
    ensures k == |es| ==> Oldest(es, n) == k && Matched(es, n) == es
  {
    if k == |es| || !Foreign(es[k].query, n) { OldestIs(es, n, k); }
  }

  /** A numeric, the entry it went to, the client that got it and the stack it left: said of the three
      lists of the queries. */
  predicate Routed(es: seq<Asked>, n: int, k: nat, client: Option<nat>, after: seq<Asked>) {
    && k <= |es| && NobodyBefore(es, k, n)
    && (k == |es| ==> client == None && after == es)
    && (k < |es| ==>
          && (n in es[k].query.replies || n in es[k].query.ends || n in es[k].query.errors)
          && client == es[k].client && after == if n in es[k].query.replies then es else Without(es, k))
  }

  /** An answer stays together: while it is part of no answer to an older query, every reply in between
      goes to the same entry, which stays; the end reply or the error that ends the answer goes there
      too and takes it away, and nothing else moves. */
  lemma {:induction false} AnswerStaysTogether(es: seq<Asked>, k: nat, ns: seq<int>, last: int)
    requires k < |es| && last !in es[k].query.replies && (last in es[k].query.ends || last in es[k].query.errors)
    requires forall i :: 0 <= i < |ns| ==> ns[i] in es[k].query.replies && NobodyBefore(es, k, ns[i])
    requires NobodyBefore(es, k, last)
    ensures forall i :: 0 <= i < |ns| ==> Oldest(MatchedAll(es, ns[..i]), ns[i]) == k
    ensures MatchedAll(es, ns) == es && Oldest(es, last) == k && MatchedAll(es, ns + [last]) == Without(es, k)
    decreases |ns|
  {
    RoutedByLists(es, last, k);
    if ns == [] {
      assert ns + [last] == [last] && [last][1..] == [];
    } else {
      RoutedByLists(es, ns[0], k);
      AnswerStaysTogether(es, k, ns[1..], last);
      assert (ns + [last])[1..] == ns[1..] + [last];
      forall i | 0 <= i < |ns|
        ensures Oldest(MatchedAll(es, ns[..i]), ns[i]) == k
      {
        if i > 0 {
          assert ns[..i][1..] == ns[1..][..i - 1];
        } else {
          assert ns[..0] == [];
        }
      }
    }
  }

  // ------------------------------------------------------------------------ tables

  /** is_reply. */
  method IsReply(replies: seq<int>, n: int) returns (found: bool)
    ensures found <==> n in replies
  {
    var i := 0;
    while i < |replies|
      invariant i <= |replies| && n !in replies[..i]
    {
      if replies[i] == n { return true; }
      i := i + 1;
    }
    return false;
  }

  /** find_query on a table: the first entry of that name. */
  method FindQuery(table: seq<Query>, name: string) returns (q: Option<Query>)
    ensures q.None? <==> forall i :: 0 <= i < |table| ==> !AsciiEq(table[i].name, name)
    ensures q.Some? ==> exists i :: && 0 <= i < |table| && table[i] == q.value && AsciiEq(table[i].name, name)
                                    && forall j :: 0 <= j < i ==> !AsciiEq(table[j].name, name)
  {
    hide AsciiEq;
    var i := 0;
    while i < |table|
      invariant i <= |table| && forall j :: 0 <= j < i ==> !AsciiEq(table[j].name, name)
    {
      if AsciiEq(table[i].name, name) { return Some(table[i]); }
      i := i + 1;
    }
    return None;
  }

  /** What answers the commands whose replies the state is built from, and what refuses them: the
      replies that go on, the reply that ends, an error. */
  predicate AnsweredRight(q: Query) {
    && (q.name == "WHO" ==> 352 in q.replies && 315 in q.ends && 402 in q.errors)
    && (q.name == "NAMES" ==> 353 in q.replies && 366 in q.ends && 402 in q.errors)
    && (q.name == "WHOIS" ==> 311 in q.replies && 312 in q.replies && 318 in q.ends && 402 in q.errors)
    && (q.name == "MODE" ==> 367 in q.replies && 368 in q.ends && 324 in q.ends && 482 in q.errors)
    && (q.name == "TOPIC" ==> q.replies == [] && 331 in q.ends && 332 in q.ends && 482 in q.errors)
    && (q.name == "USERHOST" ==> 302 in q.ends)
    && (q.name == "NICK" ==> q.replies == [] && 432 in q.errors && 433 in q.errors)
    && (q.name == "JOIN" ==> q.replies == [] && 403 in q.errors && 471 in q.errors && 473 in q.errors)
  }

  lemma Answers1(q: Query)
    requires q in QUERIES1
    ensures AnsweredRight(q)
  {}

  lemma Answers2(q: Query)
    requires q in QUERIES2
    ensures AnsweredRight(q)
  {}

  lemma Answers3(q: Query)
    requires q in QUERIES3
    ensures AnsweredRight(q)
  {}

  lemma Answers4(q: Query)
    requires q in QUERIES4
    ensures AnsweredRight(q)
  {}

  lemma Answers5(q: Query)
    requires q in QUERIES5
    ensures AnsweredRight(q)
  {}

  lemma Answers6(q: Query)
    requires q in QUERIES6
    ensures AnsweredRight(q)
  {}

  lemma AnswersInTable(q: Query)
    requires q in QUERIES
    ensures AnsweredRight(q)
  {
    assert q in QUERIES1 || q in QUERIES2 || q in QUERIES3 || q in QUERIES4 || q in QUERIES5 || q in QUERIES6 by {
      hide QUERIES1, QUERIES2, QUERIES3, QUERIES4, QUERIES5, QUERIES6;
    }
    hide AnsweredRight, QUERIES, QUERIES1, QUERIES2, QUERIES3, QUERIES4, QUERIES5, QUERIES6;
    if q in QUERIES1 { Answers1(q); }
    else if q in QUERIES2 { Answers2(q); }
    else if q in QUERIES3 { Answers3(q); }
    else if q in QUERIES4 { Answers4(q); }
    else if q in QUERIES5 { Answers5(q); }
    else { Answers6(q); }
  }

  lemma MultisetSnoc<T>(s: seq<T>, x: T)
    ensures multiset(s + [x]) == multiset(s) + multiset{x}
  {}

  lemma MultisetWithout<T>(s: seq<T>, k: nat)
    requires k < |s|
    ensures multiset(s) == multiset(Without(s, k)) + multiset{s[k]}
  {
    assert s == s[..k] + [s[k]] + s[k + 1..];
  }

  // --------------------------------------------------------------------- the stack

  class QueryStack {
    var entries: seq<Asked>
    ghost var refs: multiset<Option<nat>>
    ghost var unrefs: multiset<Option<nat>>

    /** References taken less references given back are the entries on the stack. */
    ghost predicate Valid()
      reads this
    {
      refs == unrefs + multiset(Clients(entries))
    }

    constructor ()
      ensures Valid() && entries == [] && refs == multiset{}
    {
      entries, refs, unrefs := [], multiset{}, multiset{};
      new;
      assert Clients(entries) == [];
    }

    /** query_stack_record: FALSE for a command that is not in the table, which is recorded all
        the same. */
    method Record(client: Option<nat>, l: Line, now: int) returns (known: bool, ghost q: Query)
      requires Valid() && l.args != []
      modifies this
      ensures Valid() && unrefs == old(unrefs)
      ensures known <==> exists i :: 0 <= i < |QUERIES| && AsciiEq(QUERIES[i].name, l.args[0])
      ensures known ==> q in QUERIES && AsciiEq(q.name, l.args[0])
      ensures !known ==> q == UNKNOWN
      ensures entries ==
              if q.name == "TOPIC" && |l.args| > 2 then old(entries) else old(entries) + [Asked(q, client, now)]
    {
      hide AsciiEq, QUERIES;
      var found := FindQuery(QUERIES, l.args[0]);
      known := found.Some?;
      var query := if known then found.value else UNKNOWN;
      q := query;
      if query.name != "TOPIC" || |l.args| <= 2 {
        refs := refs + multiset{client};
        MultisetSnoc(Clients(entries), client);
        entries := entries + [Asked(query, client, now)];
        assert Clients(entries) == Clients(old(entries)) + [client];
      }
    }

    /** g_list_remove and query_stack_free_entry. */
    method Remove(k: nat)
      requires Valid() && k < |entries|
      modifies this
      ensures Valid() && refs == old(refs) && entries == Without(old(entries), k)
      ensures unrefs == old(unrefs) + multiset{old(entries)[k].client}
    {
      MultisetWithout(Clients(entries), k);
      assert Clients(Without(entries, k)) == Without(Clients(entries), k);
      unrefs := unrefs + multiset{entries[k].client};
      entries := Without(entries, k);
    }

    /** query_stack_match_response: the oldest entry that accepts the numeric; it is removed exactly
        when the numeric is not a reply in between, and the order of the rest is kept. */
    method MatchResponse(l: Line) returns (client: Option<nat>, ghost k: nat)
      requires Valid()
      modifies this
      ensures Valid() && refs == old(refs)
      ensures k == Oldest(old(entries), Respcode(l)) && entries == Matched(old(entries), Respcode(l))
      ensures client == if k < |old(entries)| then old(entries)[k].client else None
      ensures unrefs == if |entries| < |old(entries)| then old(unrefs) + multiset{client} else old(unrefs)
      ensures Routed(old(entries), Respcode(l), k, client, entries)
    {
      var n, i := Respcode(l), 0;
      while i < |entries|
        invariant i <= |entries| && forall j :: 0 <= j < i ==> !Accepting(entries[j].query, n)
        invariant entries == old(entries) && refs == old(refs) && unrefs == old(unrefs)
      {
        var q := entries[i].query;
        var between := IsReply(q.replies, n);
        var error := IsReply(q.errors, n);
        var end := IsReply(q.ends, n);
        if between || error || end {
          OldestIs(entries, n, i);
          assert NobodyBefore(entries, i, n);
          client, k := entries[i].client, i;
          if !between { Remove(i); }
          return;
        }
        i := i + 1;
      }
      OldestIs(entries, n, i);
      return None, i;
    }

    /** query_stack_clear: every reference is given back. */
    method Clear()
      requires Valid()
      modifies this
      ensures Valid() && entries == [] && refs == old(refs) == unrefs
    {
      while entries != []
        invariant Valid() && refs == old(refs)
        decreases |entries|
      {
        Remove(0);
      }
      assert Clients(entries) == [];
    }
  }

  // ---------------------------------------------------------------------- redirection

  /** Where a line went. */
  datatype Delivery = ToOne(client: nat) | ToAll | ToNobody

  const RESPONSE_ALL: seq<int> := [306, 305, 487, 396, 477, 221, 8, 251, 252, 253, 254, 255, 487, 265, 266, 353, 366,
                                   332, 333, 328,
                                   329, 901]
  const RESPONSE_NONE: seq<int> := [422, 375, 372, 376]
  const RESPONSE_HANDLER: seq<int> := [464, 462, 463, 451, 465]

  /** redirect_response: TRUE unless the line went to all clients. A client's answer goes to that
      client alone; without one the tables decide. */
  method RedirectResponse(stack: QueryStack, l: Line) returns (handled: bool, to: Delivery, ghost k: nat)
    requires stack.Valid()
    modifies stack
    ensures stack.Valid() && stack.refs == old(stack.refs)
    ensures !handled <==> to == ToAll
    ensures var es, n := old(stack.entries), Respcode(l);
            && k <= |es| && Routed(es, n, k, if k < |es| then es[k].client else None, stack.entries)
            && (to.ToOne? <==> k < |es| && es[k].client.Some?)
            && (to.ToOne? ==> es[k].client == Some(to.client))
            && (!to.ToOne? ==> (to == ToNobody <==>
                                n !in RESPONSE_ALL && (n in RESPONSE_NONE || n in RESPONSE_HANDLER)))
  {
    hide RESPONSE_ALL, RESPONSE_NONE, RESPONSE_HANDLER;
    var client;
    client, k := stack.MatchResponse(l);
    if client.Some? { return true, ToOne(client.value), k; }
    var n := Respcode(l);
    var all := IsReply(RESPONSE_ALL, n);
    if all { return false, ToAll, k; }
    var none := IsReply(RESPONSE_NONE, n);
    if none { return true, ToNobody, k; }
    var special := IsReply(RESPONSE_HANDLER, n);
    if special { return true, ToNobody, k; }
    return false, ToAll, k;
  }

  /** What everybody hears, and what nobody does, without a client that asked. */
  lemma EverybodyHears()
    ensures 332 in RESPONSE_ALL && 333 in RESPONSE_ALL && 353 in RESPONSE_ALL && 366 in RESPONSE_ALL
  {
    assert RESPONSE_ALL[15] == 353 && RESPONSE_ALL[16] == 366 && RESPONSE_ALL[17] == 332 && RESPONSE_ALL[18] == 333;
  }

  lemma NobodyHears()
    ensures 372 in RESPONSE_NONE && 375 in RESPONSE_NONE && 376 in RESPONSE_NONE && 422 in RESPONSE_NONE
  {
    assert RESPONSE_NONE[0] == 422 && RESPONSE_NONE[1] == 375 && RESPONSE_NONE[2] == 372 && RESPONSE_NONE[3] == 376;
  }

  lemma NewestHears(before: seq<Asked>, a: Asked, n: int, k: nat, after: seq<Asked>)
    requires NobodyBefore(before, |before|, n)
    requires k <= |before| + 1
    requires Routed(before + [a], n, k, if k < |before| + 1 then (before + [a])[k].client else None, after)
    ensures !Foreign(a.query, n) ==> k == |before| && after == if n in a.query.replies then before + [a] else before
  {
    assert forall j :: 0 <= j < |before| ==> (before + [a])[j] == before[j];
    var es := before + [a];
    assert forall j :: 0 <= j < |before| ==> Foreign(es[j].query, n);
    assert es[|before|] == a && (k > |before| ==> Foreign(es[|before|].query, n));
    assert Without(es, |before|) == before;
  }

  /** A client asks and the next numeric that nobody asked for before is part of the answer: it goes to
      that client alone; after an end or an error the stack is as it was. */
  method AskAndHear(stack: QueryStack, client: nat, ask: Line, answer: Line, now: int)
    returns (to: Delivery, ghost q: Query)
    requires stack.Valid() && ask.args != [] && NobodyBefore(stack.entries, |stack.entries|, Respcode(answer))
    modifies stack
    ensures stack.Valid()
    ensures var n, asked := Respcode(answer), !(q.name == "TOPIC" && |ask.args| > 2);
            && (asked && n in q.replies ==>
                  to == ToOne(client) && stack.entries == old(stack.entries) + [Asked(q, Some(client), now)])
            && (asked && n !in q.replies && (n in q.ends || n in q.errors) ==>
                  to == ToOne(client) && stack.entries == old(stack.entries))
  {
    hide RESPONSE_ALL, RESPONSE_NONE, RESPONSE_HANDLER, QUERIES, AsciiEq, Respcode;
    ghost var before := stack.entries;
    var known;
    known, q := stack.Record(Some(client), ask, now);
    ghost var during := stack.entries;
    var handled;
    ghost var k;
    handled, to, k := RedirectResponse(stack, answer);
    if during != before {
      NewestHears(before, Asked(q, Some(client), now), Respcode(answer), k, stack.entries);
    }
  }

  /** What may happen to a stack. */
  datatype StackEvent = Asking(client: Option<nat>, line: Line, time: int) | Answer(line: Line) | Clearing

  /** In every trace the references taken less those given back are one for every entry. */
  method Trace(stack: QueryStack, es: seq<StackEvent>)
    requires stack.Valid() && forall x :: 0 <= x < |es| && es[x].Asking? ==> es[x].line.args != []
    modifies stack
    ensures stack.Valid() && stack.refs == stack.unrefs + multiset(Clients(stack.entries))
  {
    for x := 0 to |es|
      invariant stack.Valid()
    {
      match es[x] {
        case Asking(client, line, time) => var known, q := stack.Record(client, line, time);
        case Answer(line) => var client, k := stack.MatchResponse(line);
        case Clearing => stack.Clear();
      }
    }
  }
}
