/** Splitting a conversation into protocol groups and fitting it into a byte
    budget, as loops. The size of a message, the shortening of an old tool result
    and the text of the receipt are parameters. */
module Compaction {
  import opened Basics
  import opened Transcript

  // ---------- splitting ----------

  function Prefixed(gs: seq<seq<Message>>, rest: Option<seq<seq<Message>>>): Option<seq<seq<Message>>> {
    match rest
    case None => None
    case Some(more) => Some(gs + more)
  }

  lemma {:induction false} PrefixedEmpty(rest: Option<seq<seq<Message>>>)
    ensures Prefixed([], rest) == rest
  {
    if rest.Some? {
      assert [] + rest.value == rest.value;
    }
  }

  lemma {:induction false} PrefixedStep(gs: seq<seq<Message>>, g: seq<Message>, rest: Option<seq<seq<Message>>>)
    ensures Prefixed(gs, Prefixed([g], rest)) == Prefixed(gs + [g], rest)
  {
    if rest.Some? {
      assert gs + ([g] + rest.value) == gs + [g] + rest.value;
    }
  }

  lemma {:induction false} SetOfDistinct(ids: seq<string>)
    requires Distinct(ids)
    ensures |set id | id in ids| == |ids|
    decreases |ids|
  {
    if ids != [] {
      SetOfDistinct(ids[1..]);
      assert (set id | id in ids) == (set id | id in ids[1..]) + {ids[0]};
    }
  }

  method PendingIds(calls: seq<Call>) returns (r: Option<set<string>>)
    ensures r.Some? <==> "" !in Ids(calls) && Distinct(Ids(calls))
    ensures r.Some? ==> r.value == set id | id in Ids(calls)
  {
    var pending: set<string> := {};
    ghost var ids := Ids(calls);
    for i := 0 to |calls|
      invariant pending == set id | id in ids[..i]
      invariant "" !in ids[..i] && Distinct(ids[..i])
    {
      assert ids[i] == calls[i].id;
      if calls[i].id == "" || calls[i].id in pending {
        assert ids[i] in ids;
        return None;
      }
      assert ids[..i + 1] == ids[..i] + [ids[i]];
      pending := pending + {calls[i].id};
    }
    assert ids[..|calls|] == ids;
    r := Some(pending);
  }

  /** Takes the results of `calls` off the front of `rest`. */
  method TakeResults(calls: seq<Call>, rest: seq<Message>) returns (r: Option<nat>)
    requires "" !in Ids(calls) && Distinct(Ids(calls))
    ensures r.Some? <==> ResultsMatch(calls, rest[..LeadingResults(rest)])
    ensures r.Some? ==> r.value == LeadingResults(rest)
  {
    ghost var ids := Answered(rest[..LeadingResults(rest)]);
    var pending := set id | id in Ids(calls);
    var end := 0;
    while end < |rest| && rest[end].role == Tool
      invariant 0 <= end <= LeadingResults(rest)
      invariant Distinct(ids[..end])
      invariant forall id | id in ids[..end] :: id in Ids(calls)
      invariant forall id :: id in pending <==> id in Ids(calls) && id !in ids[..end]
    {
      assert ids[end] == rest[end].callId;
      if rest[end].callId !in pending {
        assert ids[end] in ids;
        return None;
      }
      assert ids[..end + 1] == ids[..end] + [ids[end]];
      pending := pending - {rest[end].callId};
      end := end + 1;
    }
    assert ids[..end] == ids;
    AllAnswered(Ids(calls), ids, pending);
    r := if pending == {} then Some(end) else None;
  }

  lemma {:induction false} AllAnswered(wanted: seq<string>, ids: seq<string>, pending: set<string>)
    requires Distinct(wanted) && Distinct(ids) && forall id | id in ids :: id in wanted
    requires forall id :: id in pending <==> id in wanted && id !in ids
    ensures pending == {} <==> |ids| == |wanted|
  {
    SetOfDistinct(wanted);
    SetOfDistinct(ids);
    var all, answered := set id | id in wanted, set id | id in ids;
    assert all == answered + pending && answered !! pending;
  }

  ghost predicate ResultsMatch(calls: seq<Call>, results: seq<Message>) {
    && |results| == |calls| && Distinct(Answered(results))
    && (forall id | id in Answered(results) :: id in Ids(calls))
  }

  lemma {:induction false} GroupFromResults(ms: seq<Message>)
    requires ms != [] && ms[0].role != Tool && ms[0].calls != []
    ensures IsGroup(ms[..1 + LeadingResults(ms[1..])]) <==>
            ms[0].role == Assistant && "" !in Ids(ms[0].calls) && Distinct(Ids(ms[0].calls))
            && ResultsMatch(ms[0].calls, ms[1..][..LeadingResults(ms[1..])])
  {
    var n := LeadingResults(ms[1..]);
    var g := ms[..1 + n];
    assert g[1..] == ms[1..][..n];
    assert forall i :: 1 <= i < |g| ==> g[i] == ms[1..][i - 1];
  }

  method GroupLength(ms: seq<Message>) returns (r: Option<nat>)
    requires ms != []
    ensures var end := 1 + if ms[0].calls == [] then 0 else LeadingResults(ms[1..]);
            r == if IsGroup(ms[..end]) then Some(end) else None
  {
    if ms[0].role == Tool {
      return None;
    }
    if ms[0].calls == [] {
      assert IsGroup(ms[..1]) by {
        assert ms[..1][1..] == [];
      }
      return Some(1);
    }
    GroupFromResults(ms);
    if ms[0].role != Assistant {
      return None;
    }
    var pending := PendingIds(ms[0].calls);
    if pending.None? {
      return None;
    }
    var taken := TakeResults(ms[0].calls, ms[1..]);
    r := if taken.Some? then Some(1 + taken.value) else None;
  }

  lemma {:induction false} NextGroup(groups: seq<seq<Message>>, rest: seq<Message>, length: nat)
    requires rest != [] && length == 1 + (if rest[0].calls == [] then 0 else LeadingResults(rest[1..]))
    requires IsGroup(rest[..length])
    ensures Prefixed(groups, Groups(rest)) == Prefixed(groups + [rest[..length]], Groups(rest[length..]))
  {
    assert Groups(rest) == Prefixed([rest[..length]], Groups(rest[length..]));
    PrefixedStep(groups, rest[..length], Groups(rest[length..]));
  }

  /** The loop finds exactly the groups, and fails exactly when there are none. */
  method ConversationGroups(ms: seq<Message>) returns (r: Option<seq<seq<Message>>>)
    ensures r == Groups(ms)
  {
    var groups: seq<seq<Message>> := [];
    var rest := ms;
    PrefixedEmpty(Groups(ms));
    while rest != []
      invariant Groups(ms) == Prefixed(groups, Groups(rest))
      decreases |rest|
    {
      var length := GroupLength(rest);
      if length.None? {
        return None;
      }
      NextGroup(groups, rest, length.value);
      groups := groups + [rest[..length.value]];
      rest := rest[length.value..];
    }
    r := Some(groups);
    assert groups + [] == groups;
  }

  // ---------- what compaction may do to groups ----------

  predicate IsPolicy(m: Message) {
    m.role == System || m.role == Developer
  }

  predicate HasPolicy(g: seq<Message>) {
    exists m | m in g :: IsPolicy(m)
  }

  predicate HasUser(g: seq<Message>) {
    exists m | m in g :: m.role == User
  }

  /** Every system or developer message, in order. */
  function Policies(ms: seq<Message>): seq<Message> {
    if ms == [] then [] else (if IsPolicy(ms[0]) then [ms[0]] else []) + Policies(ms[1..])
  }

  function LatestUser(ms: seq<Message>): Option<Message> {
    if ms == [] then None
    else
      var later := LatestUser(ms[1..]);
      if later.Some? then later else if ms[0].role == User then Some(ms[0]) else None
  }

  /** The groups that survive: `keep[i]` says whether group i does. */
  function Choose(gs: seq<seq<Message>>, keep: seq<bool>): seq<seq<Message>>
    requires |gs| == |keep|
  {
    if gs == [] then [] else (if keep[0] then [gs[0]] else []) + Choose(gs[1..], keep[1..])
  }

  ghost predicate SameShape(g: seq<Message>, h: seq<Message>) {
    |g| == |h| && forall i :: 0 <= i < |g| ==>
      h[i].role == g[i].role && h[i].calls == g[i].calls && h[i].callId == g[i].callId
  }

  /** `short` rewrites some contents of `gs`, and both the rewriting and the
      dropping spare policies, the latest user request and the last group. */
  ghost predicate Spares(gs: seq<seq<Message>>, short: seq<seq<Message>>, keep: seq<bool>) {
    && |gs| == |short| == |keep|
    && (forall i :: 0 <= i < |gs| ==> SameShape(gs[i], short[i]))
    && (forall i :: 0 <= i < |gs| && HasPolicy(gs[i]) ==> keep[i] && short[i] == gs[i])
    && (forall i :: 0 <= i < |gs| && HasUser(gs[i]) && (forall j | i < j < |gs| :: !HasUser(gs[j]))
                    ==> keep[i] && short[i] == gs[i])
    && (gs != [] ==> keep[|gs| - 1] && short[|gs| - 1] == gs[|gs| - 1])
  }

  lemma {:induction false} SparesTail(gs: seq<seq<Message>>, short: seq<seq<Message>>, keep: seq<bool>)
    requires Spares(gs, short, keep) && gs != []
    ensures Spares(gs[1..], short[1..], keep[1..])
  {
    forall i | 0 <= i < |gs[1..]| && HasUser(gs[1..][i]) && (forall j | i < j < |gs[1..]| :: !HasUser(gs[1..][j]))
      ensures keep[1..][i] && short[1..][i] == gs[1..][i]
    {
      assert forall j | i + 1 < j < |gs| :: gs[j] == gs[1..][j - 1];
    }
  }

  lemma {:induction false} ShapeKeepsGroup(g: seq<Message>, h: seq<Message>)
    requires SameShape(g, h) && IsGroup(g)
    ensures IsGroup(h) && (InOrder(g) ==> InOrder(h))
  {
    assert Answered(h[1..]) == Answered(g[1..]);
  }

  lemma {:induction false} ShapeKeepsIds(g: seq<Message>, h: seq<Message>)
    requires SameShape(g, h)
    ensures CallIds(g) == CallIds(h)
    decreases |g|
  {
    if g != [] {
      ShapeKeepsIds(g[1..], h[1..]);
    }
  }

  lemma {:induction false} ChosenGroups(gs: seq<seq<Message>>, short: seq<seq<Message>>, keep: seq<bool>)
    requires Spares(gs, short, keep) && AllGroups(gs)
    ensures AllGroups(Choose(short, keep))
    ensures AllInOrder(gs) ==> AllInOrder(Choose(short, keep))
    decreases |gs|
  {
    if gs != [] {
      SparesTail(gs, short, keep);
      ShapeKeepsGroup(gs[0], short[0]);
      ChosenGroups(gs[1..], short[1..], keep[1..]);
      var rest := Choose(short[1..], keep[1..]);
      assert ([short[0]] + rest)[1..] == rest && [] + rest == rest;
    }
  }

  lemma {:induction false} ChosenIds(gs: seq<seq<Message>>, short: seq<seq<Message>>, keep: seq<bool>)
    requires Spares(gs, short, keep)
    ensures forall id | id in CallIds(Concat(Choose(short, keep))) :: id in CallIds(Concat(gs))
    ensures Distinct(CallIds(Concat(gs))) ==> Distinct(CallIds(Concat(Choose(short, keep))))
    decreases |gs|
  {
    if gs != [] {
      SparesTail(gs, short, keep);
      ChosenIds(gs[1..], short[1..], keep[1..]);
      ShapeKeepsIds(gs[0], short[0]);
      var rest := Choose(short[1..], keep[1..]);
      CallIdsAppend(gs[0], Concat(gs[1..]));
      DistinctConcat(CallIds(gs[0]), CallIds(Concat(gs[1..])));
      if keep[0] {
        assert ([short[0]] + rest)[1..] == rest;
        CallIdsAppend(short[0], Concat(rest));
        DistinctConcat(CallIds(short[0]), CallIds(Concat(rest)));
      } else {
        assert [] + rest == rest;
      }
    }
  }

  lemma {:induction false} PoliciesAppend(a: seq<Message>, b: seq<Message>)
    ensures Policies(a + b) == Policies(a) + Policies(b)
    decreases |a|
  {
    if a == [] {
      assert a + b == b;
    } else {
      assert (a + b)[1..] == a[1..] + b;
      PoliciesAppend(a[1..], b);
    }
  }

  lemma {:induction false} NoPolicies(g: seq<Message>)
    requires !HasPolicy(g)
    ensures Policies(g) == []
    decreases |g|
  {
    if g != [] {
      assert g[0] in g && forall m | m in g[1..] :: m in g;
      NoPolicies(g[1..]);
    }
  }

  lemma {:induction false} ShapeKeepsPolicy(g: seq<Message>, h: seq<Message>)
    requires SameShape(g, h)
    ensures HasPolicy(g) <==> HasPolicy(h)
    ensures HasUser(g) <==> HasUser(h)
  {
    forall m | m in g ensures exists n | n in h :: n.role == m.role {
      var i :| 0 <= i < |g| && g[i] == m;
      assert h[i] in h;
    }
    forall m | m in h ensures exists n | n in g :: n.role == m.role {
      var i :| 0 <= i < |h| && h[i] == m;
      assert g[i] in g;
    }
  }

  lemma {:induction false} ChosenPolicies(gs: seq<seq<Message>>, short: seq<seq<Message>>, keep: seq<bool>)
    requires Spares(gs, short, keep)
    ensures Policies(Concat(Choose(short, keep))) == Policies(Concat(gs))
    decreases |gs|
  {
    if gs != [] {
      SparesTail(gs, short, keep);
      ChosenPolicies(gs[1..], short[1..], keep[1..]);
      var rest := Choose(short[1..], keep[1..]);
      PoliciesAppend(gs[0], Concat(gs[1..]));
      ShapeKeepsPolicy(gs[0], short[0]);
      if !HasPolicy(gs[0]) {
        NoPolicies(gs[0]);
        NoPolicies(short[0]);
      }
      if keep[0] {
        assert ([short[0]] + rest)[1..] == rest;
        PoliciesAppend(short[0], Concat(rest));
      } else {
        assert [] + rest == rest;
      }
    }
  }

  lemma {:induction false} LatestUserAppend(a: seq<Message>, b: seq<Message>)
    ensures LatestUser(a + b) == if LatestUser(b).Some? then LatestUser(b) else LatestUser(a)
    decreases |a|
  {
    if a == [] {
      assert a + b == b;
    } else {
      assert (a + b)[1..] == a[1..] + b;
      LatestUserAppend(a[1..], b);
    }
  }

  lemma {:induction false} LatestUserSome(g: seq<Message>)
    ensures LatestUser(g).Some? <==> HasUser(g)
    decreases |g|
  {
    if g != [] {
      LatestUserSome(g[1..]);
      assert forall m | m in g :: m == g[0] || m in g[1..];
      assert g[0] in g && forall m | m in g[1..] :: m in g;
    }
  }

  lemma {:induction false} NoUserGroups(gs: seq<seq<Message>>)
    ensures LatestUser(Concat(gs)).Some? <==> exists g | g in gs :: HasUser(g)
    decreases |gs|
  {
    if gs != [] {
      NoUserGroups(gs[1..]);
      LatestUserAppend(gs[0], Concat(gs[1..]));
      LatestUserSome(gs[0]);
      assert gs[0] in gs && (forall g | g in gs[1..] :: g in gs) && forall g | g in gs :: g == gs[0] || g in gs[1..];
    }
  }

  lemma {:induction false} ChosenUser(gs: seq<seq<Message>>, short: seq<seq<Message>>, keep: seq<bool>)
    requires Spares(gs, short, keep)
    ensures LatestUser(Concat(Choose(short, keep))) == LatestUser(Concat(gs))
    decreases |gs|
  {
    if gs != [] {
      SparesTail(gs, short, keep);
      ChosenUser(gs[1..], short[1..], keep[1..]);
      var rest := Choose(short[1..], keep[1..]);
      LatestUserAppend(gs[0], Concat(gs[1..]));
      NoUserGroups(gs[1..]);
      LatestUserSome(gs[0]);
      LatestUserSome(short[0]);
      ShapeKeepsPolicy(gs[0], short[0]);
      if keep[0] {
        assert ([short[0]] + rest)[1..] == rest;
        LatestUserAppend(short[0], Concat(rest));
      } else {
        assert [] + rest == rest;
      }
      assert LatestUser(Concat(gs[1..])).None? ==> forall j | 0 < j < |gs| :: gs[j] in gs[1..] && !HasUser(gs[j]);
    }
  }

  predicate IsSuffix(a: seq<Message>, b: seq<Message>) {
    |a| <= |b| && b[|b| - |a|..] == a
  }

  lemma {:induction false} ChosenLast(gs: seq<seq<Message>>, short: seq<seq<Message>>, keep: seq<bool>)
    requires Spares(gs, short, keep) && gs != []
    ensures IsSuffix(gs[|gs| - 1], Concat(Choose(short, keep)))
    decreases |gs|
  {
    LastChosen(short, keep);
  }

  lemma {:induction false} LastChosen(short: seq<seq<Message>>, keep: seq<bool>)
    requires |short| == |keep| > 0 && keep[|keep| - 1]
    ensures IsSuffix(short[|short| - 1], Concat(Choose(short, keep)))
    decreases |short|
  {
    var rest := Choose(short[1..], keep[1..]);
    if |short| == 1 {
      ConcatCons(short[0], rest);
    } else {
      LastChosen(short[1..], keep[1..]);
      if keep[0] {
        ConcatCons(short[0], rest);
        SuffixOfLonger(short[|short| - 1], short[0], Concat(rest));
      } else {
        assert [] + rest == rest;
      }
    }
  }

  lemma {:induction false} SuffixOfLonger(a: seq<Message>, b: seq<Message>, c: seq<Message>)
    requires IsSuffix(a, c)
    ensures IsSuffix(a, b + c)
  {
    assert (b + c)[|b + c| - |a|..] == c[|c| - |a|..];
  }

  // ---------- the receipt ----------

  function LeadingPolicy(ms: seq<Message>): (k: nat)
    ensures k <= |ms|
  {
    if ms == [] || !IsPolicy(ms[0]) then 0 else 1 + LeadingPolicy(ms[1..])
  }

  lemma {:induction false} LeadingPolicyStops(ms: seq<Message>, at: nat)
    requires at < |ms| && !IsPolicy(ms[at])
    ensures LeadingPolicy(ms) <= at
    decreases at
  {
    if at > 0 {
      LeadingPolicyStops(ms[1..], at - 1);
    }
  }

  /** Places `m` behind the leading policy messages. */
  function Insert(ms: seq<Message>, m: Message): seq<Message> {
    ms[..LeadingPolicy(ms)] + [m] + ms[LeadingPolicy(ms)..]
  }

  function Receipt(text: string): Message {
    Message(Assistant, text, "", [], "")
  }

  /** The insertion point falls between two groups. */
  lemma {:induction false} InsertBetweenGroups(gs: seq<seq<Message>>, m: Message) returns (hs: seq<seq<Message>>)
    requires AllGroups(gs) && m.role == Assistant && m.calls == []
    ensures AllGroups(hs) && Concat(hs) == Insert(Concat(gs), m)
    ensures AllInOrder(gs) ==> AllInOrder(hs)
    decreases |gs|
  {
    var ms := Concat(gs);
    if LeadingPolicy(ms) == 0 {
      hs := [[m]] + gs;
      LoneMessage(m);
      ConcatCons([m], gs);
      assert Insert(ms, m) == [m] + ms;
    } else {
      PolicyGroupIsSingle(gs);
      var rest := InsertBetweenGroups(gs[1..], m);
      hs := [gs[0]] + rest;
      ConcatCons(gs[0], rest);
      InsertStep(ms, m);
    }
  }

  lemma {:induction false} LoneMessage(m: Message)
    requires m.role == Assistant && m.calls == []
    ensures IsGroup([m]) && InOrder([m])
  {
    assert [m][1..] == [];
  }

  lemma {:induction false} PolicyGroupIsSingle(gs: seq<seq<Message>>)
    requires AllGroups(gs) && LeadingPolicy(Concat(gs)) > 0
    ensures gs != [] && gs[0] == [Concat(gs)[0]] && Concat(gs[1..]) == Concat(gs)[1..]
  {
    assert IsGroup(gs[0]) && Concat(gs)[0] == gs[0][0];
  }

  lemma {:induction false} InsertStep(ms: seq<Message>, m: Message)
    requires LeadingPolicy(ms) > 0
    ensures Insert(ms, m) == [ms[0]] + Insert(ms[1..], m)
  {
    SplitShifts(ms, LeadingPolicy(ms), m);
  }

  lemma {:induction false} SplitShifts<T>(s: seq<T>, k: nat, x: T)
    requires 1 <= k <= |s|
    ensures s[..k] + [x] + s[k..] == [s[0]] + (s[1..][..k - 1] + [x] + s[1..][k - 1..])
  {
    assert s[..k] == [s[0]] + s[1..][..k - 1];
    assert s[k..] == s[1..][k - 1..];
  }

  /** What inserting a receipt leaves alone. */
  lemma {:induction false} InsertKeeps(ms: seq<Message>, m: Message)
    requires m.role == Assistant && m.calls == []
    ensures CallIds(Insert(ms, m)) == CallIds(ms)
    ensures Policies(Insert(ms, m)) == Policies(ms)
    ensures LatestUser(Insert(ms, m)) == LatestUser(ms)
  {
    var k := LeadingPolicy(ms);
    var a, b := ms[..k], ms[k..];
    assert ms == a + b && [m][1..] == [];
    CallIdsAppend(a, b);
    CallIdsAppend(a, [m]);
    CallIdsAppend(a + [m], b);
    PoliciesAppend(a, b);
    PoliciesAppend(a, [m]);
    PoliciesAppend(a + [m], b);
    LatestUserAppend(a, b);
    LatestUserAppend(a, [m]);
    LatestUserAppend(a + [m], b);
  }

  lemma {:induction false} InsertKeepsSuffix(ms: seq<Message>, m: Message, g: seq<Message>)
    requires IsGroup(g) && IsSuffix(g, ms) && !IsPolicy(g[0])
    ensures IsSuffix(g, Insert(ms, m))
  {
    var at := |ms| - |g|;
    assert ms[at] == ms[at..][0] == g[0];
    LeadingPolicyStops(ms, at);
    assert Insert(ms, m)[at + 1..] == ms[at..];
  }

  // ---------- compaction ----------

  /** Parameters standing for byte lengths and for the JSON excerpts of the source. */
  datatype Codec = Codec(size: Message -> nat, shorten: string -> string, receipt: (seq<Message>, int) -> string)

  datatype Outcome = Compacted(messages: seq<Message>) | BrokenGroups | OverBudget

  const RESULT_BYTES := 2048

  function Bytes(codec: Codec, ms: seq<Message>): nat {
    if ms == [] then 0 else codec.size(ms[0]) + Bytes(codec, ms[1..])
  }

  /** The newest group, the group of the latest user request and every group with policy. */
  predicate Protected(gs: seq<seq<Message>>, i: nat)
    requires i < |gs|
  {
    i == |gs| - 1 || (HasUser(gs[i]) && forall j | i < j < |gs| :: !HasUser(gs[j])) || HasPolicy(gs[i])
  }

  function ShortenMessage(codec: Codec, m: Message): Message {
    if m.role == Tool && |m.content| > RESULT_BYTES then m.(content := codec.shorten(m.content)) else m
  }

  function ShortenGroup(codec: Codec, g: seq<Message>): (h: seq<Message>)
    ensures SameShape(g, h)
  {
    seq(|g|, i requires 0 <= i < |g| => ShortenMessage(codec, g[i]))
  }

  function Shortened(codec: Codec, gs: seq<seq<Message>>): (short: seq<seq<Message>>)
    ensures |short| == |gs|
    ensures forall i :: 0 <= i < |gs| ==> short[i] == if Protected(gs, i) then gs[i] else ShortenGroup(codec, gs[i])
  {
    seq(|gs|, i requires 0 <= i < |gs| => if Protected(gs, i) then gs[i] else ShortenGroup(codec, gs[i]))
  }

  /** Which groups survive once the unprotected ones before `upto` are gone. */
  function KeepFrom(gs: seq<seq<Message>>, upto: nat): (keep: seq<bool>)
    ensures |keep| == |gs|
    ensures forall i :: 0 <= i < |gs| ==> keep[i] == (Protected(gs, i) || i >= upto)
  {
    seq(|gs|, i requires 0 <= i < |gs| => Protected(gs, i) || i >= upto)
  }

  function Inverse(keep: seq<bool>): (drop: seq<bool>)
    ensures |drop| == |keep|
  {
    seq(|keep|, i requires 0 <= i < |keep| => !keep[i])
  }

  /** The conversation without its unprotected groups before `upto`, and with a receipt for them. */
  function Candidate(codec: Codec, gs: seq<seq<Message>>, upto: nat, maxBytes: int): seq<Message> {
    var short, keep := Shortened(codec, gs), KeepFrom(gs, upto);
    Insert(Concat(Choose(short, keep)), Receipt(codec.receipt(Concat(Choose(short, Inverse(keep))), maxBytes)))
  }

  /** Drops one unprotected group more at a time, and takes the first result that fits. */
  function FirstFit(codec: Codec, gs: seq<seq<Message>>, from: nat, maxBytes: int): Outcome
    decreases |gs| - from
  {
    if from >= |gs| then OverBudget
    else if !Protected(gs, from) && Bytes(codec, Candidate(codec, gs, from + 1, maxBytes)) <= maxBytes then
      Compacted(Candidate(codec, gs, from + 1, maxBytes))
    else FirstFit(codec, gs, from + 1, maxBytes)
  }

  /** The conversation as it is, with old results shortened, or with as few groups
      dropped as it takes. */
  ghost function Expected(codec: Codec, ms: seq<Message>, maxBytes: int): Outcome {
    if Bytes(codec, ms) <= maxBytes then Compacted(ms)
    else if Groups(ms).None? then BrokenGroups
    else SmallerFit(codec, Groups(ms).value, maxBytes)
  }

  function SmallerFit(codec: Codec, gs: seq<seq<Message>>, maxBytes: int): Outcome {
    if Bytes(codec, Concat(Shortened(codec, gs))) <= maxBytes then Compacted(Concat(Shortened(codec, gs)))
    else FirstFit(codec, gs, 0, maxBytes)
  }

  method Compact(codec: Codec, ms: seq<Message>, maxBytes: int) returns (r: Outcome)
    ensures r == Expected(codec, ms, maxBytes)
    ensures r.Compacted? ==> Bytes(codec, r.messages) <= maxBytes && Faithful(ms, r.messages)
  {
    ExpectedIsFaithful(codec, ms, maxBytes);
    if Bytes(codec, ms) <= maxBytes {
      return Compacted(ms);
    }
    var split := ConversationGroups(ms);
    if split.None? {
      return BrokenGroups;
    }
    var gs := split.value;
    var short := Shortened(codec, gs);
    if Bytes(codec, Concat(short)) <= maxBytes {
      return Compacted(Concat(short));
    }
    r := DropGroups(codec, gs, maxBytes);
  }

  /** Drops one unprotected group more at a time until the rest fits. */
  method DropGroups(codec: Codec, gs: seq<seq<Message>>, maxBytes: int) returns (r: Outcome)
    ensures r == FirstFit(codec, gs, 0, maxBytes)
  {
    var i := 0;
    while i < |gs|
      invariant 0 <= i <= |gs|
      invariant FirstFit(codec, gs, i, maxBytes) == FirstFit(codec, gs, 0, maxBytes)
    {
      if !Protected(gs, i) {
        var candidate := Candidate(codec, gs, i + 1, maxBytes);
        if Bytes(codec, candidate) <= maxBytes {
          return Compacted(candidate);
        }
      }
      i := i + 1;
    }
    return OverBudget;
  }

  /** What a compacted conversation keeps: its protocol shape, every policy
      message, the latest user request, and the newest group verbatim unless
      that group is itself policy. */
  ghost predicate Faithful(ms: seq<Message>, r: seq<Message>) {
    && (Groups(ms).Some? ==> Groups(r).Some?)
    && (WellFormed(ms) ==> WellFormed(r))
    && (forall id | id in CallIds(r) :: id in CallIds(ms))
    && Policies(r) == Policies(ms)
    && LatestUser(r) == LatestUser(ms)
    && KeepsNewest(ms, r)
  }

  ghost predicate KeepsNewest(ms: seq<Message>, r: seq<Message>) {
    Groups(ms).Some? && ms != [] ==> IsPolicy(NewestGroup(ms)[0]) || IsSuffix(NewestGroup(ms), r)
  }

  ghost function NewestGroup(ms: seq<Message>): (g: seq<Message>)
    requires Groups(ms).Some? && ms != []
    ensures IsGroup(g) && IsSuffix(g, ms)
  {
    GroupsSound(ms);
    var gs := Groups(ms).value;
    LastGroup(gs, ms);
    gs[|gs| - 1]
  }

  lemma {:induction false} LastGroup(gs: seq<seq<Message>>, ms: seq<Message>)
    requires AllGroups(gs) && ms == Concat(gs) && ms != []
    ensures gs != [] && IsGroup(gs[|gs| - 1]) && IsSuffix(gs[|gs| - 1], ms)
  {
    var before, last := gs[..|gs| - 1], gs[|gs| - 1];
    LastIsGroup(gs);
    ConcatSnoc(before, last);
    assert before + [last] == gs;
    SuffixOfLonger(last, Concat(before), last);
  }

  lemma {:induction false} FaithfulToItself(ms: seq<Message>)
    ensures Faithful(ms, ms)
  {
    if Groups(ms).Some? && ms != [] {
      assert IsSuffix(NewestGroup(ms), ms);
    }
  }

  lemma {:induction false} ProtectionSpares(codec: Codec, gs: seq<seq<Message>>, upto: nat)
    ensures Spares(gs, Shortened(codec, gs), KeepFrom(gs, upto))
  {
  }

  /** Dropping and shortening, without the receipt. */
  lemma {:induction false} SparingIsFaithful(ms: seq<Message>, short: seq<seq<Message>>, keep: seq<bool>)
    requires Groups(ms).Some? && Spares(Groups(ms).value, short, keep)
    ensures AllGroups(Choose(short, keep)) && Faithful(ms, Concat(Choose(short, keep)))
    ensures WellFormed(ms) ==> AllInOrder(Choose(short, keep))
  {
    GroupsSound(ms);
    var gs := Groups(ms).value;
    ChosenGroups(gs, short, keep);
    GroupsComplete(Choose(short, keep));
    ChosenIds(gs, short, keep);
    ChosenPolicies(gs, short, keep);
    ChosenUser(gs, short, keep);
    if ms != [] {
      ChosenLast(gs, short, keep);
    }
  }

  lemma {:induction false} ChooseAll(gs: seq<seq<Message>>, keep: seq<bool>)
    requires |gs| == |keep| && forall i :: 0 <= i < |keep| ==> keep[i]
    ensures Choose(gs, keep) == gs
    decreases |gs|
  {
    if gs != [] {
      ChooseAll(gs[1..], keep[1..]);
    }
  }

  lemma {:induction false} ShorteningIsFaithful(codec: Codec, ms: seq<Message>)
    requires Groups(ms).Some?
    ensures Faithful(ms, Concat(Shortened(codec, Groups(ms).value)))
  {
    var gs := Groups(ms).value;
    ProtectionSpares(codec, gs, 0);
    SparingIsFaithful(ms, Shortened(codec, gs), KeepFrom(gs, 0));
    ChooseAll(Shortened(codec, gs), KeepFrom(gs, 0));
  }

  lemma {:induction false} CandidateIsFaithful(codec: Codec, ms: seq<Message>, upto: nat, maxBytes: int)
    requires Groups(ms).Some?
    ensures Faithful(ms, Candidate(codec, Groups(ms).value, upto, maxBytes))
  {
    var gs := Groups(ms).value;
    var short, keep := Shortened(codec, gs), KeepFrom(gs, upto);
    var chosen := Choose(short, keep);
    var m := Receipt(codec.receipt(Concat(Choose(short, Inverse(keep))), maxBytes));
    ProtectionSpares(codec, gs, upto);
    SparingIsFaithful(ms, short, keep);
    ReceiptIsFaithful(ms, chosen, m);
  }

  lemma {:induction false} ReceiptIsFaithful(ms: seq<Message>, chosen: seq<seq<Message>>, m: Message)
    requires AllGroups(chosen) && Faithful(ms, Concat(chosen)) && m.role == Assistant && m.calls == []
    requires WellFormed(ms) ==> AllInOrder(chosen)
    ensures Faithful(ms, Insert(Concat(chosen), m))
  {
    var hs := InsertBetweenGroups(chosen, m);
    GroupsComplete(hs);
    InsertKeeps(Concat(chosen), m);
    if Groups(ms).Some? && ms != [] && !IsPolicy(NewestGroup(ms)[0]) {
      InsertKeepsSuffix(Concat(chosen), m, NewestGroup(ms));
    }
  }

  lemma {:induction false} FirstFitIsFaithful(codec: Codec, ms: seq<Message>, from: nat, maxBytes: int)
    requires Groups(ms).Some?
    ensures var r := FirstFit(codec, Groups(ms).value, from, maxBytes);
            r.Compacted? ==> Bytes(codec, r.messages) <= maxBytes && Faithful(ms, r.messages)
    decreases |Groups(ms).value| - from
  {
    if from < |Groups(ms).value| {
      CandidateIsFaithful(codec, ms, from + 1, maxBytes);
      FirstFitIsFaithful(codec, ms, from + 1, maxBytes);
    }
  }

  /** A compacted conversation fits its budget and is faithful to the original. */
  lemma {:induction false} ExpectedIsFaithful(codec: Codec, ms: seq<Message>, maxBytes: int)
    ensures var r := Expected(codec, ms, maxBytes);
            r.Compacted? ==> Bytes(codec, r.messages) <= maxBytes && Faithful(ms, r.messages)
  {
    if Bytes(codec, ms) <= maxBytes {
      FaithfulToItself(ms);
    } else if Groups(ms).Some? {
      ShorteningIsFaithful(codec, ms);
      FirstFitIsFaithful(codec, ms, 0, maxBytes);
    }
  }
}
