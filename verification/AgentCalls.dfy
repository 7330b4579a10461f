/** Repairing provider call ids, and the guard that stops identical calls from
    being repeated within one request. */
module AgentCalls {
  import opened Basics
  import opened Text
  import opened ToolPolicy
  import opened Transcript

  // ---------- ids ----------

  function Digit(n: nat): char
    requires n < 10
  {
    ('0' as int + n) as char
  }

  function Decimal(n: nat): (s: string)
    ensures s != []
    ensures |s| == 1 <==> n < 10
  {
    if n < 10 then [Digit(n)] else Decimal(n / 10) + [Digit(n % 10)]
  }

  lemma {:induction false} DecimalInjective(a: nat, b: nat)
    requires Decimal(a) == Decimal(b)
    ensures a == b
    decreases a
  {
    var s := Decimal(a);
    if a < 10 {
      assert s[0] == Digit(a) == Digit(b);
    } else {
      assert Decimal(a)[..|s| - 1] == Decimal(a / 10) && Decimal(b)[..|s| - 1] == Decimal(b / 10);
      assert Decimal(a)[|s| - 1] == Digit(a % 10) && Decimal(b)[|s| - 1] == Digit(b % 10);
      DecimalInjective(a / 10, b / 10);
    }
  }

  function BaseId(step: nat, index: nat): string {
    "assistant-call-" + Decimal(step + 1) + "-" + Decimal(index + 1)
  }

  function SuffixedId(base: string, suffix: nat): string {
    base + "-" + Decimal(suffix)
  }

  lemma {:induction false} SuffixedInjective(base: string, a: nat, b: nat)
    requires SuffixedId(base, a) == SuffixedId(base, b)
    ensures a == b
  {
    var prefix := base + "-";
    assert SuffixedId(base, a)[|prefix|..] == Decimal(a) && SuffixedId(base, b)[|prefix|..] == Decimal(b);
    DecimalInjective(a, b);
  }

  /** The first suffixed id not in use. Only finitely many are, so the bound on the
      suffix is never what ends the search. */
  function FirstFree(base: string, used: set<string>, suffix: nat): string
    decreases |used| + 1 - suffix
  {
    if SuffixedId(base, suffix) !in used || suffix > |used| then SuffixedId(base, suffix)
    else FirstFree(base, used, suffix + 1)
  }

  function FreshIdOf(base: string, used: set<string>): string {
    if base in used then FirstFree(base, used, 1) else base
  }

  /** The suffix search ends because the ids it tries are all different and only
      finitely many are taken. */
  method FreshId(base: string, used: set<string>) returns (id: string)
    requires base != ""
    ensures id == FreshIdOf(base, used) && id !in used && id != ""
  {
    id := base;
    var suffix := 1;
    ghost var tried: set<string> := {};
    while id in used
      invariant suffix >= 1 && id != ""
      invariant tried <= used && |tried| == suffix - 1
      invariant if suffix == 1 then id == base else id == SuffixedId(base, suffix - 1) && base in used
      invariant suffix > 1 ==> FirstFree(base, used, 1) == FirstFree(base, used, suffix - 1)
      invariant id !in tried
      invariant forall t | t in tried :: t == base || exists k :: 1 <= k < suffix - 1 && t == SuffixedId(base, k)
      decreases |used| - |tried|
    {
      tried := tried + {id};
      SubsetSize(tried, used);
      var next := SuffixedId(base, suffix);
      NewCandidate(base, suffix, tried, next);
      id := next;
      suffix := suffix + 1;
    }
  }

  /** The base is used before any suffix, and what is found is free. */
  lemma {:induction false} FreshIdIsFree(base: string, used: set<string>)
    requires base != ""
    ensures FreshIdOf(base, used) !in used && FreshIdOf(base, used) != ""
  {
    if base in used {
      SearchFinds(base, used, 1, {base});
    }
  }

  lemma {:induction false} SearchFinds(base: string, used: set<string>, suffix: nat, tried: set<string>)
    requires 1 <= suffix == |tried| && tried <= used
    requires forall t | t in tried :: t == base || exists k :: 1 <= k < suffix && t == SuffixedId(base, k)
    ensures FirstFree(base, used, suffix) !in used && FirstFree(base, used, suffix) != ""
    decreases |used| + 1 - suffix
  {
    var id := SuffixedId(base, suffix);
    SubsetSize(tried, used);
    if id in used {
      NewCandidate(base, suffix, tried, id);
      SubsetSize(tried + {id}, used);
      SearchFinds(base, used, suffix + 1, tried + {id});
    }
  }

  lemma {:induction false} SubsetSize(a: set<string>, b: set<string>)
    requires a <= b
    ensures |a| <= |b|
  {
    assert b == a + (b - a);
  }

  lemma {:induction false} NewCandidate(base: string, suffix: nat, tried: set<string>, next: string)
    requires suffix >= 1 && next == SuffixedId(base, suffix)
    requires forall t | t in tried :: t == base || exists k :: 1 <= k < suffix && t == SuffixedId(base, k)
    ensures next !in tried
  {
    assert |next| > |base|;
    if next in tried {
      var k :| 1 <= k < suffix && next == SuffixedId(base, k);
      SuffixedInjective(base, suffix, k);
    }
  }

  function Canonical(call: Call, id: string): Call {
    call.(id := id, kind := if call.kind == "" then "function" else call.kind)
  }

  /** An id that can stay as it is. */
  predicate GoodId(call: Call, used: set<string>, earlier: seq<string>) {
    Trim(call.id) != "" && Trim(call.id) !in used && Trim(call.id) !in earlier
  }

  /** Every call gets a non-empty id no other call of the request has; a good id
      is kept, and nothing but the id and an empty kind changes. */
  ghost predicate Repaired(calls: seq<Call>, used: set<string>, r: seq<Call>) {
    && |r| == |calls|
    && (forall i :: 0 <= i < |r| ==> r[i] == Canonical(calls[i], r[i].id))
    && (forall i :: 0 <= i < |r| && GoodId(calls[i], used, Ids(r)[..i]) ==> r[i].id == Trim(calls[i].id))
    && Distinct(Ids(r)) && "" !in Ids(r) && forall id | id in Ids(r) :: id !in used
  }

  lemma {:induction false} RepairOneMore(calls: seq<Call>, used: set<string>, r: seq<Call>, call: Call, id: string)
    requires Repaired(calls, used, r)
    requires id != "" && id !in used && id !in Ids(r)
    requires GoodId(call, used, Ids(r)) ==> id == Trim(call.id)
    ensures Repaired(calls + [call], used, r + [Canonical(call, id)])
    ensures Ids(r + [Canonical(call, id)]) == Ids(r) + [id]
  {
    var r' := r + [Canonical(call, id)];
    assert Ids(r') == Ids(r) + [id];
    assert forall i | 0 <= i <= |r| :: Ids(r')[..i] == Ids(r)[..i];
    assert Ids(r)[..|r|] == Ids(r);
  }

  /** The id a call ends up with, given those in use. */
  function RepairedId(call: Call, step: nat, index: nat, used: set<string>): string {
    var id := Trim(call.id);
    if id == "" || id in used then FreshIdOf(BaseId(step, index), used) else id
  }

  /** The calls with their ids repaired one after the other. */
  function Normalized(calls: seq<Call>, step: nat, used: set<string>): (r: seq<Call>)
    ensures |r| == |calls|
    decreases |calls|
  {
    if calls == [] then []
    else
      var before, call := Normalized(calls[..|calls| - 1], step, used), calls[|calls| - 1];
      before + [Canonical(call, RepairedId(call, step, |calls| - 1, used + IdSet(before)))]
  }

  function IdSet(calls: seq<Call>): set<string> {
    set id | id in Ids(calls)
  }

  lemma {:induction false} NormalizedOneMore(calls: seq<Call>, i: nat, step: nat, used: set<string>)
    requires i < |calls|
    ensures var r := Normalized(calls[..i], step, used);
            Normalized(calls[..i + 1], step, used)
            == r + [Canonical(calls[i], RepairedId(calls[i], step, i, used + IdSet(r)))]
  {
    assert calls[..i + 1][..i] == calls[..i];
  }

  lemma {:induction false} IdSetSnoc(calls: seq<Call>, call: Call)
    ensures IdSet(calls + [call]) == IdSet(calls) + {call.id}
  {
    assert Ids(calls + [call]) == Ids(calls) + [call.id];
  }

  method NormalizeCalls(calls: seq<Call>, step: nat, used: set<string>) returns (r: seq<Call>, used': set<string>)
    ensures r == Normalized(calls, step, used) && Repaired(calls, used, r)
    ensures used' == used + IdSet(r)
  {
    r := [];
    used' := used;
    for i := 0 to |calls|
      invariant r == Normalized(calls[..i], step, used)
      invariant used' == used + IdSet(r)
    {
      var id := Trim(calls[i].id);
      if id == "" || id in used' {
        id := FreshId(BaseId(step, i), used');
      }
      var call := Canonical(calls[i], id);
      NormalizedOneMore(calls, i, step, used);
      IdSetSnoc(r, call);
      r := r + [call];
      used' := used' + {id};
    }
    assert calls[..|calls|] == calls;
    NormalizedIsRepaired(calls, step, used);
  }

  /** Repairing gives every call a new, non-empty id of its own and keeps good ones. */
  lemma {:induction false} NormalizedIsRepaired(calls: seq<Call>, step: nat, used: set<string>)
    ensures Repaired(calls, used, Normalized(calls, step, used))
    decreases |calls|
  {
    if calls != [] {
      var before, call := calls[..|calls| - 1], calls[|calls| - 1];
      var r := Normalized(before, step, used);
      NormalizedIsRepaired(before, step, used);
      FreshIdIsFree(BaseId(step, |before|), used + IdSet(r));
      RepairOneMore(before, used, r, call, RepairedId(call, step, |before|, used + IdSet(r)));
      assert before + [call] == calls;
    }
  }

  // ---------- the loop guard ----------

  /** What identifies a call: its tool and its canonical arguments. */
  type Key = (ToolName, string)

  datatype CallState = CallState(attempts: nat, success: bool, epoch: nat)
  datatype Guard = Guard(calls: map<Key, CallState>, epoch: nat)

  const MAX_ATTEMPTS := 2

  function StateOf(g: Guard, key: Key, readOnly: bool): CallState {
    var state := if key in g.calls then g.calls[key] else CallState(0, false, 0);
    if readOnly && state.epoch != g.epoch then CallState(0, false, g.epoch) else state
  }

  predicate Allows(g: Guard, key: Key, readOnly: bool) {
    var state := StateOf(g, key, readOnly);
    !(!readOnly && state.success) && state.attempts < MAX_ATTEMPTS
  }

  function Admit(g: Guard, key: Key, readOnly: bool): Guard {
    var state := StateOf(g, key, readOnly);
    g.(calls := g.calls[key := state.(attempts := state.attempts + 1)])
  }

  function Completed(g: Guard, key: Key, readOnly: bool, success: bool): Guard {
    if !success || readOnly then g
    else
      var state := if key in g.calls then g.calls[key] else CallState(0, false, 0);
      Guard(g.calls[key := state.(success := true)], g.epoch + 1)
  }

  class LoopGuard {
    var calls: map<Key, CallState>
    var epoch: nat

    ghost function View(): Guard
      reads this
    {
      Guard(calls, epoch)
    }

    constructor ()
      ensures View() == Guard(map[], 0)
    {
      calls, epoch := map[], 0;
    }

    method Allow(key: Key, readOnly: bool) returns (ok: bool)
      modifies this
      ensures ok == Allows(old(View()), key, readOnly)
      ensures View() == if ok then Admit(old(View()), key, readOnly) else old(View())
    {
      var state := if key in calls then calls[key] else CallState(0, false, 0);
      if readOnly && state.epoch != epoch {
        state := CallState(0, false, epoch);
      }
      if (!readOnly && state.success) || state.attempts >= MAX_ATTEMPTS {
        return false;
      }
      state := state.(attempts := state.attempts + 1);
      calls := calls[key := state];
      return true;
    }

    method Complete(key: Key, readOnly: bool, success: bool)
      modifies this
      ensures View() == Completed(old(View()), key, readOnly, success)
    {
      if !success || readOnly {
        return;
      }
      var state := if key in calls then calls[key] else CallState(0, false, 0);
      calls := calls[key := state.(success := true)];
      epoch := epoch + 1;
    }
  }

  // ---------- whole request histories ----------

  /** One executed call; `done` is a success or an attempted mutation. */
  datatype Execution = Execution(key: Key, readOnly: bool, done: bool)

  /** The guard after a history: refused calls leave no trace in it. */
  function After(history: seq<Execution>): Guard {
    if history == [] then Guard(map[], 0)
    else
      var e := history[|history| - 1];
      Completed(Admit(After(history[..|history| - 1]), e.key, e.readOnly), e.key, e.readOnly, e.done)
  }

  /** A history the guard let through. */
  predicate Admitted(history: seq<Execution>) {
    forall i :: 0 <= i < |history| ==> Allows(After(history[..i]), history[i].key, history[i].readOnly)
  }

  /** Every execution of the call was judged to be a write. */
  predicate AlwaysWrites(history: seq<Execution>, key: Key) {
    forall e | e in history && e.key == key :: !e.readOnly
  }

  function Count(history: seq<Execution>, key: Key): nat {
    if history == [] then 0
    else Count(history[..|history| - 1], key) + if history[|history| - 1].key == key then 1 else 0
  }

  predicate HasSucceeded(history: seq<Execution>, key: Key) {
    exists e | e in history :: e.key == key && !e.readOnly && e.done
  }

  lemma {:induction false} AfterSnoc(history: seq<Execution>, e: Execution, key: Key)
    requires e.key == key ==> !e.readOnly
    ensures var was, state := StateOf(After(history), key, false), StateOf(After(history + [e]), key, false);
            && state.attempts == was.attempts + (if e.key == key then 1 else 0)
            && (state.success <==> was.success || (e.key == key && e.done))
  {
    assert (history + [e])[..|history|] == history;
  }

  /** What the guard remembers of a call over a stretch in which it was always judged to
      be a write: what it knew before, and every execution since. */
  lemma {:induction false} GuardRemembers(earlier: seq<Execution>, history: seq<Execution>, key: Key)
    requires AlwaysWrites(history, key)
    ensures var was, state := StateOf(After(earlier), key, false), StateOf(After(earlier + history), key, false);
            && state.attempts == was.attempts + Count(history, key)
            && (state.success <==> was.success || HasSucceeded(history, key))
    decreases |history|
  {
    if history == [] {
      assert earlier + history == earlier;
    } else {
      var before, e := history[..|history| - 1], history[|history| - 1];
      assert history == before + [e] && earlier + history == earlier + before + [e];
      GuardRemembers(earlier, before, key);
      AfterSnoc(earlier + before, e, key);
    }
  }

  /** What is allowed as a write after such a stretch ran at most once in it, and did
      not succeed. */
  lemma {:induction false} StretchFences(earlier: seq<Execution>, stretch: seq<Execution>, key: Key)
    requires AlwaysWrites(stretch, key) && Allows(After(earlier + stretch), key, false)
    ensures Count(stretch, key) < MAX_ATTEMPTS && !HasSucceeded(stretch, key)
  {
    GuardRemembers(earlier, stretch, key);
  }

  /** Over any such stretch, a call runs at most twice and never again once it has
      succeeded. What was judged before the stretch does not matter. */
  lemma {:induction false} MutationsAreFenced(history: seq<Execution>, from: nat, i: nat, j: nat)
    requires Admitted(history) && from <= i < j < |history| && history[i].key == history[j].key
    requires AlwaysWrites(history[from..j + 1], history[j].key)
    ensures !history[i].done
    ensures Count(history[from..j], history[j].key) < MAX_ATTEMPTS
  {
    var stretch, key := history[from..j], history[j].key;
    StretchParts(history, from, i, j);
    AdmittedAt(history, j);
    StretchFences(history[..from], stretch, key);
  }

  lemma {:induction false} StretchParts(history: seq<Execution>, from: nat, i: nat, j: nat)
    requires from <= i < j < |history| && history[i].key == history[j].key
    requires AlwaysWrites(history[from..j + 1], history[j].key)
    ensures history[..from] + history[from..j] == history[..j] && history[i] in history[from..j]
    ensures AlwaysWrites(history[from..j], history[j].key) && !history[i].readOnly && !history[j].readOnly
  {
    var stretch := history[from..j];
    assert history[from..j + 1] == stretch + [history[j]];
    assert stretch[i - from] == history[i];
  }

  lemma {:induction false} AdmittedAt(history: seq<Execution>, j: nat)
    requires Admitted(history) && j < |history|
    ensures Allows(After(history[..j]), history[j].key, history[j].readOnly)
  {
  }

  /** So a write that succeeded runs again as a write only if the same call was judged
      read-only, and ran, in between. */
  lemma {:induction false} RepeatNeedsRead(history: seq<Execution>, i: nat, j: nat)
    requires Admitted(history) && i < j < |history| && history[i].key == history[j].key
    requires !history[i].readOnly && history[i].done && !history[j].readOnly
    ensures exists k :: i < k < j && history[k].key == history[j].key && history[k].readOnly
  {
    if forall k | i < k < j && history[k].key == history[j].key :: !history[k].readOnly {
      StretchWrites(history, i, j);
      MutationsAreFenced(history, i, i, j);
    }
  }

  lemma {:induction false} StretchWrites(history: seq<Execution>, i: nat, j: nat)
    requires i <= j < |history|
    requires forall k | i <= k <= j && history[k].key == history[j].key :: !history[k].readOnly
    ensures AlwaysWrites(history[i..j + 1], history[j].key)
  {
    var stretch := history[i..j + 1];
    forall e | e in stretch && e.key == history[j].key ensures !e.readOnly {
      var k :| 0 <= k < |stretch| && stretch[k] == e;
      assert history[i + k] == e;
    }
  }

  /** Every key the guard knows belongs to an executed call. */
  lemma {:induction false} GuardKnowsExecuted(history: seq<Execution>, key: Key)
    ensures key in After(history).calls <==> exists e | e in history :: e.key == key
    decreases |history|
  {
    if history != [] {
      var before, e := history[..|history| - 1], history[|history| - 1];
      assert history == before + [e];
      GuardKnowsExecuted(before, key);
      assert e in history && forall x | x in before :: x in history;
    }
  }

  /** One such read is enough: a call judged read-only once in a new epoch wipes the
      memory of its own earlier success. */
  lemma {:induction false} OneReadBreaksTheFence(key: Key)
    ensures var write := Execution(key, false, true);
            Admitted([write, Execution(key, true, true), write])
  {
    var write, read := Execution(key, false, true), Execution(key, true, true);
    var h := [write, read, write];
    assert h[..0] == [] && h[..1] == [write] && h[..2] == [write, read];
    assert [write][..0] == [] && [write, read][..1] == [write];
    var g1 := Completed(Admit(Guard(map[], 0), key, false), key, false, true);
    assert After([write]) == g1;
    assert After([write, read]) == Admit(g1, key, true);
  }
}
