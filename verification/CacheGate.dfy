/** The response cache and the per-key gate that lets one request at a time call
    the model: check, acquire, check again, call, store, release. A run is any
    list of enabled actions of any number of requests, plus expiry of entries. */
module CacheGate {
  import opened Basics

  type Key = string
  type Id = nat

  // ---------- the gate ----------

  /** `entries` maps a key to the identity of its gate entry, `closed` holds the
      entries whose done channel is closed, `issued` counts identities. */
  datatype Gate = Gate(entries: map<Key, Id>, closed: seq<Id>, issued: nat)

  datatype Acquired = Owner(entry: Id) | Full | WaitFor(entry: Id)

  function TryAcquire(g: Gate, maxKeys: nat, key: Key): (Gate, Acquired) {
    if key in g.entries then (g, WaitFor(g.entries[key]))
    else if |g.entries| >= maxKeys then (g, Full)
    else (g.(entries := g.entries[key := g.issued], issued := g.issued + 1), Owner(g.issued))
  }

  function Release(g: Gate, key: Key, entry: Id): Gate {
    if key in g.entries && g.entries[key] == entry then g.(entries := g.entries - {key}, closed := g.closed + [entry])
    else g
  }

  /** Identities are never reused, an entry is open exactly while it is in the
      map, no channel is closed twice, and the map stays within its bound. */
  ghost predicate GateInv(g: Gate, maxKeys: nat) {
    && (forall k | k in g.entries :: g.entries[k] < g.issued && g.entries[k] !in g.closed)
    && (forall k, l | k in g.entries && l in g.entries :: g.entries[k] == g.entries[l] ==> k == l)
    && (forall e | e in g.closed :: e < g.issued)
    && Distinct(g.closed)
    && |g.entries| <= maxKeys
  }

  lemma {:induction false} ReleaseKeepsGate(g: Gate, maxKeys: nat, key: Key, entry: Id)
    requires GateInv(g, maxKeys)
    ensures GateInv(Release(g, key, entry), maxKeys)
  {
    if key in g.entries && g.entries[key] == entry {
      DistinctConcat(g.closed, [entry]);
      var left := g.entries - {key};
      assert g.entries.Keys == left.Keys + {key};
    }
  }

  class KeyedGate {
    var entries: map<Key, Id>
    const maxKeys: nat
    ghost var closed: seq<Id>
    var issued: nat

    ghost function View(): Gate
      reads this
    {
      Gate(entries, closed, issued)
    }

    constructor (limit: int)
      ensures View() == Gate(map[], [], 0) && maxKeys == if limit < 1 then 1 else limit
      ensures GateInv(View(), maxKeys)
    {
      entries, maxKeys, closed, issued := map[], if limit < 1 then 1 else limit, [], 0;
    }

    /** One critical section of Acquire for a non-empty key; a waiter comes back after its entry closes. */
    method Try(key: Key) returns (r: Acquired)
      requires GateInv(View(), maxKeys)
      modifies this
      ensures GateInv(View(), maxKeys) && (View(), r) == TryAcquire(old(View()), maxKeys, key)
    {
      if key in entries {
        return WaitFor(entries[key]);
      }
      if |entries| >= maxKeys {
        return Full;
      }
      r := Owner(issued);
      entries := entries[key := issued];
      issued := issued + 1;
    }

    /** Releasing twice, or after somebody else took the key, changes nothing. */
    method ReleaseEntry(key: Key, entry: Id)
      requires GateInv(View(), maxKeys)
      modifies this
      ensures GateInv(View(), maxKeys) && View() == Release(old(View()), key, entry)
    {
      ReleaseKeepsGate(View(), maxKeys, key, entry);
      if key in entries && entries[key] == entry {
        entries := entries - {key};
        closed := closed + [entry];
      }
    }
  }

  // ---------- requests ----------

  datatype Phase =
    | Arrived
    | Trying
    | Waiting(entry: Id)
    | Holding(entry: Id)
    | Calling(entry: Id)
    | Leaving(entry: Id)
    | CallingUncached
    | Served
    | Gone

  datatype Request = Request(key: Key, phase: Phase)

  /** `owner` is an auxiliary record of the request that holds each key's entry. */
  datatype System = System(gate: Gate, cache: set<Key>, requests: map<nat, Request>, owner: map<Key, nat>)

  datatype Action =
    | Arrive(r: nat, key: Key)
    | Check(r: nat)
    | Acquire(r: nat)
    | Wake(r: nat)
    | Cancel(r: nat)
    | Recheck(r: nat)
    | Finish(r: nat, store: bool)
    | FinishUncached(r: nat)
    | Leave(r: nat)
    | Expire(key: Key)

  const START := System(Gate(map[], [], 0), {}, map[], map[])

  function PhaseOf(s: System, r: nat): Phase {
    if r in s.requests then s.requests[r].phase else Gone
  }

  predicate Enabled(s: System, a: Action) {
    match a
    case Arrive(r, key) => r !in s.requests && key != ""
    case Check(r) => PhaseOf(s, r).Arrived?
    case Acquire(r) => PhaseOf(s, r).Trying?
    case Wake(r) => PhaseOf(s, r).Waiting? && PhaseOf(s, r).entry in s.gate.closed
    case Cancel(r) => PhaseOf(s, r).Waiting?
    case Recheck(r) => PhaseOf(s, r).Holding?
    case Finish(r, _) => PhaseOf(s, r).Calling?
    case FinishUncached(r) => PhaseOf(s, r).CallingUncached?
    case Leave(r) => PhaseOf(s, r).Leaving?
    case Expire(_) => true
  }

  function Move(s: System, r: nat, p: Phase): System
    requires r in s.requests
  {
    s.(requests := s.requests[r := s.requests[r].(phase := p)])
  }

  function DoAcquire(s: System, maxKeys: nat, r: nat): System
    requires r in s.requests
  {
    var key := s.requests[r].key;
    var (gate, got) := TryAcquire(s.gate, maxKeys, key);
    match got
    case Owner(e) => Move(s.(gate := gate, owner := s.owner[key := r]), r, Holding(e))
    case Full => Move(s, r, CallingUncached)
    case WaitFor(e) => Move(s, r, Waiting(e))
  }

  function DoRecheck(s: System, r: nat): System
    requires PhaseOf(s, r).Holding?
  {
    var e := s.requests[r].phase.entry;
    Move(s, r, if s.requests[r].key in s.cache then Leaving(e) else Calling(e))
  }

  function DoFinish(s: System, r: nat, store: bool): System
    requires PhaseOf(s, r).Calling?
  {
    Move(s, r, Leaving(s.requests[r].phase.entry)).(cache := if store then s.cache + {s.requests[r].key} else s.cache)
  }

  function DoLeave(s: System, r: nat): System
    requires PhaseOf(s, r).Leaving?
  {
    var key := s.requests[r].key;
    Move(s.(gate := Release(s.gate, key, s.requests[r].phase.entry), owner := s.owner - {key}), r, Served)
  }

  function Apply(s: System, maxKeys: nat, a: Action): System {
    if !Enabled(s, a) then s
    else match a
    case Arrive(r, key) => s.(requests := s.requests[r := Request(key, Arrived)])
    case Check(r) => Move(s, r, if s.requests[r].key in s.cache then Served else Trying)
    case Acquire(r) => DoAcquire(s, maxKeys, r)
    case Wake(r) => Move(s, r, Trying)
    case Cancel(r) => Move(s, r, Gone)
    case Recheck(r) => DoRecheck(s, r)
    case Finish(r, store) => DoFinish(s, r, store)
    case FinishUncached(r) => Move(s, r, Served)
    case Leave(r) => DoLeave(s, r)
    case Expire(key) => s.(cache := s.cache - {key})
  }

  // ---------- what every step keeps ----------

  predicate Holds(p: Phase) {
    p.Holding? || p.Calling? || p.Leaving?
  }

  /** Every current entry has one holder, and every holder is that of its key's entry. */
  ghost predicate OwnersInv(s: System) {
    && s.owner.Keys == s.gate.entries.Keys
    && (forall k | k in s.owner :: Owns(s, k, s.owner[k]))
    && (forall r | r in s.requests && Holds(s.requests[r].phase) ::
          s.requests[r].key in s.owner && s.owner[s.requests[r].key] == r)
  }

  predicate Owns(s: System, k: Key, r: nat) {
    && r in s.requests && s.requests[r].key == k && Holds(s.requests[r].phase)
    && k in s.gate.entries && s.requests[r].phase.entry == s.gate.entries[k]
  }

  /** A waiter waits for an entry that is closed, or current and thus held. */
  ghost predicate WaitersInv(s: System) {
    forall r | r in s.requests && s.requests[r].phase.Waiting? ::
      var q := s.requests[r];
      q.phase.entry in s.gate.closed || (q.key in s.gate.entries && s.gate.entries[q.key] == q.phase.entry)
  }

  /** Nobody calls upstream through the gate for a key that is cached. */
  ghost predicate CallersInv(s: System) {
    forall r | r in s.requests && s.requests[r].phase.Calling? :: s.requests[r].key !in s.cache
  }

  ghost predicate Inv(s: System, maxKeys: nat) {
    GateInv(s.gate, maxKeys) && OwnersInv(s) && WaitersInv(s) && CallersInv(s)
  }

  /** A request that neither gains nor gives up the gate. */
  lemma {:induction false} MoveKeeps(s: System, maxKeys: nat, r: nat, p: Phase)
    requires Inv(s, maxKeys) && r in s.requests
    requires Holds(s.requests[r].phase) <==> Holds(p)
    requires Holds(p) ==> p.entry == s.requests[r].phase.entry
    requires p.Waiting? ==> s.requests[r].key in s.gate.entries && s.gate.entries[s.requests[r].key] == p.entry
    requires p.Calling? ==> s.requests[r].key !in s.cache
    ensures Inv(Move(s, r, p), maxKeys)
  {
  }

  lemma {:induction false} AcquireKeeps(s: System, maxKeys: nat, r: nat)
    requires Inv(s, maxKeys) && PhaseOf(s, r).Trying?
    ensures Inv(DoAcquire(s, maxKeys, r), maxKeys)
  {
    var key := s.requests[r].key;
    if key in s.gate.entries {
      MoveKeeps(s, maxKeys, r, Waiting(s.gate.entries[key]));
    } else if |s.gate.entries| >= maxKeys {
      MoveKeeps(s, maxKeys, r, CallingUncached);
    } else {
      NewHolderKeeps(s, maxKeys, r);
    }
  }

  lemma {:induction false} NewHolderKeeps(s: System, maxKeys: nat, r: nat)
    requires Inv(s, maxKeys) && PhaseOf(s, r).Trying?
    requires s.requests[r].key !in s.gate.entries && |s.gate.entries| < maxKeys
    ensures Inv(DoAcquire(s, maxKeys, r), maxKeys)
  {
    var t := DoAcquire(s, maxKeys, r);
    NewHolderOwns(s, maxKeys, r);
    assert WaitersInv(t);
    assert CallersInv(t);
  }

  lemma {:induction false} NewHolderOwns(s: System, maxKeys: nat, r: nat)
    requires Inv(s, maxKeys) && PhaseOf(s, r).Trying?
    requires s.requests[r].key !in s.gate.entries && |s.gate.entries| < maxKeys
    ensures OwnersInv(DoAcquire(s, maxKeys, r))
  {
    var t := DoAcquire(s, maxKeys, r);
    forall k | k in t.owner ensures Owns(t, k, t.owner[k]) {
      assert k != s.requests[r].key ==> Owns(s, k, s.owner[k]);
    }
  }

  lemma {:induction false} LeaveKeepsOwners(s: System, maxKeys: nat, r: nat)
    requires Inv(s, maxKeys) && PhaseOf(s, r).Leaving?
    ensures OwnersInv(DoLeave(s, r))
  {
    var t, key := DoLeave(s, r), s.requests[r].key;
    assert s.owner[key] == r;
    forall k | k in t.owner ensures Owns(t, k, t.owner[k]) {
      assert Owns(s, k, s.owner[k]) && s.owner[k] != r;
    }
  }

  lemma {:induction false} LeaveKeeps(s: System, maxKeys: nat, r: nat)
    requires Inv(s, maxKeys) && PhaseOf(s, r).Leaving?
    ensures Inv(DoLeave(s, r), maxKeys)
  {
    ReleaseKeepsGate(s.gate, maxKeys, s.requests[r].key, s.requests[r].phase.entry);
    LeaveKeepsOwners(s, maxKeys, r);
    assert CallersInv(DoLeave(s, r));
  }

  lemma {:induction false} FinishKeeps(s: System, maxKeys: nat, r: nat, store: bool)
    requires Inv(s, maxKeys) && PhaseOf(s, r).Calling?
    ensures Inv(DoFinish(s, r, store), maxKeys)
  {
    MoveKeeps(s, maxKeys, r, Leaving(s.requests[r].phase.entry));
    assert CallersInv(DoFinish(s, r, store));
  }

  lemma {:induction false} HolderStepKeeps(s: System, maxKeys: nat, a: Action)
    requires Inv(s, maxKeys) && Enabled(s, a) && (a.Acquire? || a.Recheck? || a.Finish? || a.Leave?)
    ensures Inv(Apply(s, maxKeys, a), maxKeys)
  {
    match a
    case Acquire(r) => AcquireKeeps(s, maxKeys, r);
    case Recheck(r) =>
      var e := s.requests[r].phase.entry;
      MoveKeeps(s, maxKeys, r, if s.requests[r].key in s.cache then Leaving(e) else Calling(e));
    case Finish(r, store) => FinishKeeps(s, maxKeys, r, store);
    case Leave(r) => LeaveKeeps(s, maxKeys, r);
  }

  lemma {:induction false} OtherStepKeeps(s: System, maxKeys: nat, a: Action)
    requires Inv(s, maxKeys) && Enabled(s, a) && !(a.Acquire? || a.Recheck? || a.Finish? || a.Leave?)
    ensures Inv(Apply(s, maxKeys, a), maxKeys)
  {
    match a
    case Check(r) => MoveKeeps(s, maxKeys, r, if s.requests[r].key in s.cache then Served else Trying);
    case Wake(r) => MoveKeeps(s, maxKeys, r, Trying);
    case Cancel(r) => MoveKeeps(s, maxKeys, r, Gone);
    case FinishUncached(r) => MoveKeeps(s, maxKeys, r, Served);
    case Arrive(_, _) => assert OwnersInv(Apply(s, maxKeys, a));
    case Expire(_) => assert OwnersInv(Apply(s, maxKeys, a));
    case _ => assert false;
  }

  lemma {:induction false} StepKeeps(s: System, maxKeys: nat, a: Action)
    requires Inv(s, maxKeys) && Enabled(s, a)
    ensures Inv(Apply(s, maxKeys, a), maxKeys)
  {
    if a.Acquire? || a.Recheck? || a.Finish? || a.Leave? {
      HolderStepKeeps(s, maxKeys, a);
    } else {
      OtherStepKeeps(s, maxKeys, a);
    }
  }

  // ---------- runs ----------

  function Exec(maxKeys: nat, run: seq<Action>): System {
    if run == [] then START else Apply(Exec(maxKeys, run[..|run| - 1]), maxKeys, run[|run| - 1])
  }

  /** Every action is enabled when it is taken. */
  predicate IsRun(maxKeys: nat, run: seq<Action>) {
    run == [] || (IsRun(maxKeys, run[..|run| - 1]) && Enabled(Exec(maxKeys, run[..|run| - 1]), run[|run| - 1]))
  }

  lemma {:induction false} StartKept(maxKeys: nat)
    ensures Inv(START, maxKeys)
  {
    assert OwnersInv(START);
  }

  lemma {:induction false} RunsKeep(maxKeys: nat, run: seq<Action>)
    requires IsRun(maxKeys, run)
    ensures Inv(Exec(maxKeys, run), maxKeys)
    decreases |run|
  {
    if run == [] {
      StartKept(maxKeys);
    } else {
      RunsKeep(maxKeys, run[..|run| - 1]);
      StepKeeps(Exec(maxKeys, run[..|run| - 1]), maxKeys, run[|run| - 1]);
    }
  }

  /** The last of the first `n` steps. */
  lemma {:induction false} StepOf(maxKeys: nat, run: seq<Action>, n: nat)
    requires IsRun(maxKeys, run) && 0 < n <= |run|
    ensures IsRun(maxKeys, run[..n])
    ensures Enabled(Exec(maxKeys, run[..n - 1]), run[n - 1])
    ensures Exec(maxKeys, run[..n]) == Apply(Exec(maxKeys, run[..n - 1]), maxKeys, run[n - 1])
    decreases |run|
  {
    if n == |run| {
      assert run[..n] == run;
    } else {
      var before := run[..|run| - 1];
      StepOf(maxKeys, before, n);
      assert before[..n] == run[..n] && before[..n - 1] == run[..n - 1];
    }
  }

  /** The key an action of a request works on. */
  function KeyOf(s: System, a: Action): Key {
    match a
    case Arrive(_, key) => key
    case Expire(key) => key
    case _ => if a.r in s.requests then s.requests[a.r].key else ""
  }

  /** A gate holder starts an upstream call. */
  predicate StartsCall(s: System, a: Action, key: Key) {
    a.Recheck? && KeyOf(s, a) == key && key !in s.cache
  }

  predicate Stores(s: System, a: Action, key: Key) {
    a.Finish? && a.store && KeyOf(s, a) == key
  }

  /** A live entry for `key` disappears. */
  predicate Drops(s: System, a: Action, key: Key) {
    a == Expire(key) && key in s.cache
  }

  predicate EndsUnstored(s: System, a: Action, key: Key) {
    a.Finish? && !a.store && KeyOf(s, a) == key
  }

  /** What is counted over a run. */
  datatype Kind = Calls | Drop | Unstored

  predicate Counts(kind: Kind, s: System, a: Action, key: Key) {
    match kind
    case Calls => StartsCall(s, a, key)
    case Drop => Drops(s, a, key)
    case Unstored => EndsUnstored(s, a, key)
  }

  function Tally(maxKeys: nat, run: seq<Action>, kind: Kind, key: Key): nat
    decreases |run|
  {
    if run == [] then 0
    else
      var before := run[..|run| - 1];
      Tally(maxKeys, before, kind, key) + if Counts(kind, Exec(maxKeys, before), run[|run| - 1], key) then 1 else 0
  }

  /** The holder of the key is calling upstream. */
  predicate Busy(s: System, key: Key) {
    key in s.owner && PhaseOf(s, s.owner[key]).Calling?
  }

  function Count(b: bool): nat {
    if b then 1 else 0
  }

  /** The books of one step: a call begins only when the key is neither cached nor
      being called, and ends in a live entry or unstored. */
  predicate Balanced(s: System, t: System, a: Action, key: Key) {
    Count(Busy(s, key)) + Count(key in s.cache) + Count(StartsCall(s, a, key))
    == Count(Busy(t, key)) + Count(key in t.cache) + Count(Drops(s, a, key)) + Count(EndsUnstored(s, a, key))
  }

  lemma {:induction false} EnteringBooks(s: System, maxKeys: nat, a: Action, key: Key)
    requires Inv(s, maxKeys) && Enabled(s, a) && (a.Acquire? || a.Recheck?)
    ensures Balanced(s, Apply(s, maxKeys, a), a, key)
  {
    assert Holds(s.requests[a.r].phase) ==> s.owner[s.requests[a.r].key] == a.r;
    assert key in s.owner ==> Owns(s, key, s.owner[key]);
  }

  lemma {:induction false} LeavingBooks(s: System, maxKeys: nat, a: Action, key: Key)
    requires Inv(s, maxKeys) && Enabled(s, a) && (a.Finish? || a.Leave?)
    ensures Balanced(s, Apply(s, maxKeys, a), a, key)
  {
    assert Holds(s.requests[a.r].phase) ==> s.owner[s.requests[a.r].key] == a.r;
    assert key in s.owner ==> Owns(s, key, s.owner[key]);
  }

  lemma {:induction false} OtherBooks(s: System, maxKeys: nat, a: Action, key: Key)
    requires Inv(s, maxKeys) && Enabled(s, a) && !(a.Acquire? || a.Recheck? || a.Finish? || a.Leave?)
    ensures Balanced(s, Apply(s, maxKeys, a), a, key)
  {
    assert key in s.owner ==> Owns(s, key, s.owner[key]);
  }

  lemma {:induction false} StepBooks(s: System, maxKeys: nat, a: Action, key: Key)
    requires Inv(s, maxKeys) && Enabled(s, a)
    ensures Balanced(s, Apply(s, maxKeys, a), a, key)
  {
    if a.Acquire? || a.Recheck? {
      EnteringBooks(s, maxKeys, a, key);
    } else if a.Finish? || a.Leave? {
      LeavingBooks(s, maxKeys, a, key);
    } else {
      OtherBooks(s, maxKeys, a, key);
    }
  }

  /** Conservation over every run: the calls gate holders made for a key are the
      live entry, plus the entries that expired, plus the calls that stored
      nothing, plus the one in flight. */
  lemma {:induction false} CallsAreAccountedFor(maxKeys: nat, run: seq<Action>, key: Key)
    requires IsRun(maxKeys, run)
    ensures var s := Exec(maxKeys, run);
            Tally(maxKeys, run, Calls, key)
            == Count(key in s.cache) + Count(Busy(s, key))
               + Tally(maxKeys, run, Drop, key) + Tally(maxKeys, run, Unstored, key)
    decreases |run|
  {
    if run != [] {
      var before, a := run[..|run| - 1], run[|run| - 1];
      CallsAreAccountedFor(maxKeys, before, key);
      RunsKeep(maxKeys, before);
      var s := Exec(maxKeys, before);
      StepBooks(s, maxKeys, a, key);
      LastStep(maxKeys, run, key);
    }
  }

  lemma {:induction false} LastStep(maxKeys: nat, run: seq<Action>, key: Key)
    requires run != []
    ensures var before, a := run[..|run| - 1], run[|run| - 1];
            var s := Exec(maxKeys, before);
            && Tally(maxKeys, run, Calls, key) == Tally(maxKeys, before, Calls, key) + Count(StartsCall(s, a, key))
            && Tally(maxKeys, run, Drop, key) == Tally(maxKeys, before, Drop, key) + Count(Drops(s, a, key))
            && Tally(maxKeys, run, Unstored, key)
               == Tally(maxKeys, before, Unstored, key) + Count(EndsUnstored(s, a, key))
  {
  }

  /** At most one gate holder per key, so at most one is calling upstream; and
      while an entry is live none is. */
  lemma {:induction false} SingleFlight(maxKeys: nat, run: seq<Action>, r: nat, t: nat)
    requires IsRun(maxKeys, run)
    ensures var s := Exec(maxKeys, run);
            r in s.requests && t in s.requests && Holds(s.requests[r].phase) && Holds(s.requests[t].phase) ==>
              s.requests[r].key == s.requests[t].key ==> r == t
    ensures var s := Exec(maxKeys, run);
            r in s.requests && s.requests[r].phase.Calling? ==> s.requests[r].key !in s.cache
  {
    RunsKeep(maxKeys, run);
  }

  lemma {:induction false} OnlyExpiryRemoves(s: System, maxKeys: nat, a: Action, key: Key)
    requires Enabled(s, a) && a != Expire(key) && (key in s.cache || Stores(s, a, key))
    ensures key in Apply(s, maxKeys, a).cache
  {
  }

  /** After a store, no gate holder calls upstream for that key before the entry expires. */
  lemma {:induction false} StoredMeansNoCall(maxKeys: nat, run: seq<Action>, i: nat, j: nat, key: Key)
    requires IsRun(maxKeys, run) && i < j < |run|
    requires Stores(Exec(maxKeys, run[..i]), run[i], key)
    requires forall k | i < k < j :: run[k] != Expire(key)
    ensures key in Exec(maxKeys, run[..j]).cache && !StartsCall(Exec(maxKeys, run[..j]), run[j], key)
    decreases j
  {
    StepOf(maxKeys, run, j);
    if j - 1 > i {
      StoredMeansNoCall(maxKeys, run, i, j - 1, key);
    }
    OnlyExpiryRemoves(Exec(maxKeys, run[..j - 1]), maxKeys, run[j - 1], key);
  }

  /** The coordination map never exceeds its bound, a request goes upstream without
      the gate only when the map is full of other keys, and nobody waits for an
      entry that cannot close. */
  lemma {:induction false} GateIsBoundedAndLive(maxKeys: nat, run: seq<Action>, r: nat)
    requires IsRun(maxKeys, run) && r in Exec(maxKeys, run).requests
    ensures var s := Exec(maxKeys, run); |s.gate.entries| <= maxKeys && Distinct(s.gate.closed)
    ensures var s, q := Exec(maxKeys, run), Exec(maxKeys, run).requests[r];
            q.phase.Waiting? ==> q.phase.entry in s.gate.closed || (q.key in s.owner && Owns(s, q.key, s.owner[q.key]))
    ensures var s, q := Exec(maxKeys, run), Exec(maxKeys, run).requests[r];
            q.phase.Trying? && Apply(s, maxKeys, Acquire(r)).requests[r].phase.CallingUncached?
            <==> q.phase.Trying? && q.key !in s.gate.entries && |s.gate.entries| == maxKeys
  {
    RunsKeep(maxKeys, run);
  }
}
