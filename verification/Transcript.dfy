/** The conversation a provider sees: messages, and the protocol groups a tool call and
    its results form. */
module Transcript {
  import opened Basics
  import opened ToolPolicy

  datatype Role = System | Developer | User | Assistant | Tool | OtherRole(text: string)
  datatype Call = Call(id: string, kind: string, tool: ToolName, args: string)
  datatype Message = Message(role: Role, content: string, name: string, calls: seq<Call>, callId: string)

  // ---------- protocol groups ----------

  function Ids(calls: seq<Call>): (ids: seq<string>)
    ensures |ids| == |calls|
  {
    seq(|calls|, i requires 0 <= i < |calls| => calls[i].id)
  }

  function Answered(results: seq<Message>): (ids: seq<string>)
    ensures |ids| == |results|
  {
    seq(|results|, i requires 0 <= i < |results| => results[i].callId)
  }

  /** A head that is no tool result, followed by its results: every call is
      answered once, in any order, and nothing else is answered. */
  ghost predicate IsGroup(g: seq<Message>) {
    && g != [] && g[0].role != Tool
    && (forall i :: 1 <= i < |g| ==> g[i].role == Tool)
    && |g| == 1 + |g[0].calls|
    && (g[0].calls != [] ==> g[0].role == Assistant && "" !in Ids(g[0].calls))
    && Distinct(Ids(g[0].calls))
    && Distinct(Answered(g[1..]))
    && (forall id | id in Answered(g[1..]) :: id in Ids(g[0].calls))
  }

  /** The stricter form the agent produces: results in call order, carrying no calls. */
  ghost predicate InOrder(g: seq<Message>) {
    g != [] && Answered(g[1..]) == Ids(g[0].calls) && forall i :: 1 <= i < |g| ==> g[i].calls == []
  }

  function LeadingResults(ms: seq<Message>): (n: nat)
    ensures n <= |ms|
    ensures forall i :: 0 <= i < n ==> ms[i].role == Tool
    ensures n < |ms| ==> ms[n].role != Tool
  {
    if ms == [] || ms[0].role != Tool then 0 else 1 + LeadingResults(ms[1..])
  }

  /** Splits a conversation into groups, or fails on an orphaned, unmatched,
      duplicate or missing result. */
  ghost function Groups(ms: seq<Message>): Option<seq<seq<Message>>> {
    if ms == [] then Some([])
    else
      var end := 1 + if ms[0].calls == [] then 0 else LeadingResults(ms[1..]);
      if !IsGroup(ms[..end]) then None
      else
        match Groups(ms[end..])
        case None => None
        case Some(rest) => Some([ms[..end]] + rest)
  }

  ghost predicate AllGroups(gs: seq<seq<Message>>) {
    gs != [] ==> IsGroup(gs[0]) && AllGroups(gs[1..])
  }

  ghost predicate AllInOrder(gs: seq<seq<Message>>) {
    gs != [] ==> InOrder(gs[0]) && AllInOrder(gs[1..])
  }

  lemma {:induction false} GroupsSound(ms: seq<Message>)
    requires Groups(ms).Some?
    ensures AllGroups(Groups(ms).value) && Concat(Groups(ms).value) == ms
    decreases |ms|
  {
    if ms != [] {
      var end := 1 + if ms[0].calls == [] then 0 else LeadingResults(ms[1..]);
      GroupsSound(ms[end..]);
      JoinFirst(ms, end, Groups(ms[end..]).value);
    }
  }

  lemma {:induction false} JoinFirst(ms: seq<Message>, end: nat, rest: seq<seq<Message>>)
    requires end <= |ms| && IsGroup(ms[..end]) && AllGroups(rest) && Concat(rest) == ms[end..]
    ensures AllGroups([ms[..end]] + rest) && Concat([ms[..end]] + rest) == ms
  {
    assert ([ms[..end]] + rest)[1..] == rest;
    ConcatCons(ms[..end], rest);
    Adjacent(ms, 0, end, |ms|);
  }

  /** A group is exactly what the splitter takes off the front. */
  lemma {:induction false} GroupEnd(g: seq<Message>, rest: seq<Message>)
    requires IsGroup(g) && (rest != [] ==> rest[0].role != Tool)
    ensures g[0].calls != [] ==> 1 + LeadingResults((g + rest)[1..]) == |g|
  {
    var ms := (g + rest)[1..];
    assert forall i :: 0 <= i < |g| - 1 ==> ms[i] == g[i + 1];
    assert rest != [] ==> ms[|g| - 1] == rest[0];
  }

  lemma {:induction false} GroupsComplete(gs: seq<seq<Message>>)
    requires AllGroups(gs)
    ensures Groups(Concat(gs)) == Some(gs)
    decreases |gs|
  {
    if gs != [] {
      var g, rest, ms := gs[0], Concat(gs[1..]), Concat(gs);
      GroupsComplete(gs[1..]);
      if |gs| > 1 {
        ConcatHead(gs[1..]);
      }
      GroupEnd(g, rest);
      assert ms[..|g|] == g && ms[|g|..] == rest;
      assert gs == [g] + gs[1..];
    }
  }

  lemma {:induction false} ConcatHead(gs: seq<seq<Message>>)
    requires AllGroups(gs) && gs != []
    ensures Concat(gs) != [] && Concat(gs)[0].role != Tool
  {
    assert IsGroup(gs[0]) && Concat(gs)[0] == gs[0][0];
  }

  lemma {:induction false} AllGroupsAppend(gs: seq<seq<Message>>, hs: seq<seq<Message>>)
    ensures AllGroups(gs + hs) <==> AllGroups(gs) && AllGroups(hs)
    ensures AllInOrder(gs + hs) <==> AllInOrder(gs) && AllInOrder(hs)
    decreases |gs|
  {
    if gs == [] {
      assert gs + hs == hs;
    } else {
      assert (gs + hs)[1..] == gs[1..] + hs;
      AllGroupsAppend(gs[1..], hs);
    }
  }

  lemma {:induction false} LastIsGroup(gs: seq<seq<Message>>)
    requires AllGroups(gs) && gs != []
    ensures IsGroup(gs[|gs| - 1])
    decreases |gs|
  {
    if |gs| > 1 {
      LastIsGroup(gs[1..]);
    }
  }

  // ---------- well-formed transcripts ----------

  function CallIds(ms: seq<Message>): seq<string> {
    if ms == [] then [] else Ids(ms[0].calls) + CallIds(ms[1..])
  }

  lemma {:induction false} CallIdsAppend(a: seq<Message>, b: seq<Message>)
    ensures CallIds(a + b) == CallIds(a) + CallIds(b)
    decreases |a|
  {
    if a == [] {
      assert a + b == b;
    } else {
      assert (a + b)[1..] == a[1..] + b;
      CallIdsAppend(a[1..], b);
    }
  }

  /** The shape every upstream request must have: each message with calls is
      followed at once by one result per call, in order, with the matching id,
      results occur nowhere else, and no id is used twice. */
  ghost predicate WellFormed(ms: seq<Message>) {
    && Groups(ms).Some?
    && AllInOrder(Groups(ms).value)
    && Distinct(CallIds(ms))
  }

  lemma {:induction false} WellFormedFromGroups(gs: seq<seq<Message>>)
    requires AllGroups(gs) && AllInOrder(gs) && Distinct(CallIds(Concat(gs)))
    ensures WellFormed(Concat(gs))
  {
    GroupsComplete(gs);
  }

  /** Results that answer `calls` one by one, in order. */
  ghost predicate Answers(results: seq<Message>, calls: seq<Call>) {
    && |results| == |calls|
    && forall i :: 0 <= i < |results| ==>
         results[i].role == Tool && results[i].calls == [] && results[i].callId == calls[i].id
  }

  lemma {:induction false} ExchangeIsGroup(head: Message, results: seq<Message>)
    requires head.role == Assistant && Distinct(Ids(head.calls)) && "" !in Ids(head.calls)
    requires Answers(results, head.calls)
    ensures IsGroup([head] + results) && InOrder([head] + results)
    ensures CallIds([head] + results) == Ids(head.calls)
  {
    var g := [head] + results;
    assert g[1..] == results;
    assert Answered(results) == Ids(head.calls);
    NoCallsNoIds(results);
  }

  lemma {:induction false} NoCallsNoIds(ms: seq<Message>)
    requires forall m | m in ms :: m.calls == []
    ensures CallIds(ms) == []
    decreases |ms|
  {
    if ms != [] {
      NoCallsNoIds(ms[1..]);
    }
  }

  /** A finished exchange keeps a transcript well formed when its ids are new. */
  lemma {:induction false} AppendExchange(ms: seq<Message>, head: Message, results: seq<Message>)
    requires WellFormed(ms)
    requires head.role == Assistant && Distinct(Ids(head.calls)) && "" !in Ids(head.calls)
    requires Answers(results, head.calls)
    requires forall id | id in Ids(head.calls) :: id !in CallIds(ms)
    ensures WellFormed(ms + [head] + results)
    ensures CallIds(ms + [head] + results) == CallIds(ms) + Ids(head.calls)
  {
    GroupsSound(ms);
    var gs := Groups(ms).value;
    var g := [head] + results;
    ExchangeIsGroup(head, results);
    assert ms + [head] + results == ms + g;
    CallIdsAppend(ms, g);
    DistinctConcat(CallIds(ms), Ids(head.calls));
    GroupAppended(gs, g);
    WellFormedFromGroups(gs + [g]);
  }

  lemma {:induction false} GroupAppended(gs: seq<seq<Message>>, g: seq<Message>)
    requires AllGroups(gs) && AllInOrder(gs) && IsGroup(g) && InOrder(g)
    ensures AllGroups(gs + [g]) && AllInOrder(gs + [g]) && Concat(gs + [g]) == Concat(gs) + g
  {
    assert [g][1..] == [];
    AllGroupsAppend(gs, [g]);
    ConcatSnoc(gs, g);
  }

  /** Plain text messages are well formed whatever they say. */
  lemma {:induction false} TextIsWellFormed(ms: seq<Message>)
    requires forall m | m in ms :: m.role != Tool && m.calls == []
    ensures WellFormed(ms) && CallIds(ms) == []
    decreases |ms|
  {
    NoCallsNoIds(ms);
    if ms != [] {
      TextIsWellFormed(ms[1..]);
      GroupsSound(ms[1..]);
      var gs := [[ms[0]]] + Groups(ms[1..]).value;
      assert gs[1..] == Groups(ms[1..]).value;
      assert [ms[0]][1..] == [];
      assert IsGroup([ms[0]]) && InOrder([ms[0]]);
      assert Concat(gs) == [ms[0]] + ms[1..] == ms;
      WellFormedFromGroups(gs);
    }
  }
}
