/** Previewing and applying a model price change (controller/assistant_admin.go) over
    the eight price tables and the price locks (model/model_price_lock.go). Values
    are real numbers. */
module Pricing {
  import opened Basics

  datatype Field =
    | ModelPrice | ModelRatio
    | CompletionRatio | CacheRatio | CreateCacheRatio | ImageRatio | AudioRatio | AudioCompletionRatio

  type Table = map<string, real>

  type Tables = map<Field, Table>

  /** The six ratios beside the price or ratio itself. */
  predicate Extra(f: Field) {
    f != ModelPrice && f != ModelRatio
  }

  ghost predicate HasExtras(ratios: map<Field, real>) {
    forall f: Field :: f in ratios <==> Extra(f)
  }

  predicate Full(t: Tables) {
    forall f: Field :: f in t
  }

  /** Missing ratios read as zero. */
  function Number(t: Table, model: string): real {
    if model in t then t[model] else 0.0
  }

  function Entry(t: Table, model: string): Option<real> {
    if model in t then Some(t[model]) else None
  }

  datatype State = State(fixed: bool, value: real, ratios: map<Field, real>)

  function CurrentState(t: Tables, model: string): State
    requires Full(t)
  {
    var price := Entry(t[ModelPrice], model);
    State(price.Some?,
          if price.Some? then price.value else Number(t[ModelRatio], model),
          map f: Field | Extra(f) :: Number(t[f], model))
  }

  /** A price per request or a ratio, the extra ratios to set, and the state the
      preview was made from. */
  datatype Change = Change(model: string, fixed: bool, value: real, ratios: map<Field, real>, expected: Option<State>)

  ghost predicate WellFormed(c: Change) {
    forall f :: f in c.ratios ==> Extra(f)
  }

  /** What the preview shows as next. */
  function NextState(from: State, c: Change): State {
    State(c.fixed, c.value, from.ratios + c.ratios)
  }

  // ----- Building the new tables --------------------------------------------

  function Edited(f: Field, t: Table, c: Change): Table {
    match f
    case ModelPrice => if c.fixed then t[c.model := c.value] else t - {c.model}
    case ModelRatio => if c.fixed then t - {c.model} else t[c.model := c.value]
    case _ => if f in c.ratios then t[c.model := c.ratios[f]] else t
  }

  function Options(copied: Tables, c: Change): Tables {
    map f | f in copied :: Edited(f, copied[f], c)
  }

  /** What the change puts into a table for its own model. */
  function Wanted(f: Field, before: Option<real>, c: Change): Option<real> {
    match f
    case ModelPrice => if c.fixed then Some(c.value) else None
    case ModelRatio => if c.fixed then None else Some(c.value)
    case _ => if f in c.ratios then Some(c.ratios[f]) else before
  }

  lemma {:induction false} EditedEntry(f: Field, t: Table, c: Change, model: string)
    ensures Entry(Edited(f, t, c), model)
            == if model == c.model then Wanted(f, Entry(t, model), c) else Entry(t, model)
  {
  }

  /** Locked models keep their current entries, missing ones included. */
  function Restored(proposed: Table, current: Table, locks: set<string>): Table {
    map n | n in proposed.Keys + current.Keys && (if n in locks then n in current else n in proposed)
      :: if n in locks then current[n] else proposed[n]
  }

  function Filtered(proposed: Tables, current: Tables, locks: set<string>): Tables
    requires Full(proposed) && Full(current)
  {
    map f | f in proposed :: Restored(proposed[f], current[f], locks)
  }

  ghost predicate Differs(proposed: Tables, current: Tables, model: string)
    requires Full(proposed) && Full(current)
  {
    exists f: Field :: Entry(proposed[f], model) != Entry(current[f], model)
  }

  ghost function Ignored(proposed: Tables, current: Tables, locks: set<string>): set<string>
    requires Full(proposed) && Full(current)
  {
    set n | n in locks && Differs(proposed, current, n)
  }

  lemma {:induction false} RestoredEntry(proposed: Table, current: Table, locks: set<string>, model: string)
    ensures Entry(Restored(proposed, current, locks), model)
            == if model in locks then Entry(current, model) else Entry(proposed, model)
  {
  }

  // ----- The methods --------------------------------------------------------

  function WithRatio(t: Tables, f: Field, c: Change): Tables
    requires f in t
  {
    if f in c.ratios then t[f := t[f][c.model := c.ratios[f]]] else t
  }

  function Rank(f: Field): nat {
    match f
    case ModelPrice => 0
    case ModelRatio => 1
    case CompletionRatio => 2
    case CacheRatio => 3
    case CreateCacheRatio => 4
    case ImageRatio => 5
    case AudioRatio => 6
    case AudioCompletionRatio => 7
  }

  /** The tables after the first n fields have been edited. */
  ghost predicate Partly(options: Tables, tables: Tables, c: Change, n: nat)
    requires Full(tables)
  {
    Full(options) && forall f: Field :: options[f] == if Rank(f) < n then Edited(f, tables[f], c) else tables[f]
  }

  lemma {:induction false} OneRatio(options: Tables, tables: Tables, c: Change, f: Field)
    requires Full(tables) && Partly(options, tables, c, Rank(f)) && Rank(f) >= 2
    ensures Partly(WithRatio(options, f, c), tables, c, Rank(f) + 1)
  {
    forall g: Field
      ensures WithRatio(options, f, c)[g] == if Rank(g) < Rank(f) + 1 then Edited(g, tables[g], c) else tables[g]
    {
      if g != f {
        assert Rank(g) != Rank(f);
      }
    }
  }

  method BuildOptions(tables: Tables, c: Change) returns (options: Tables)
    requires Full(tables)
    ensures options == Options(tables, c)
  {
    var prices, ratios := tables[ModelPrice], tables[ModelRatio];
    if c.fixed {
      prices := prices[c.model := c.value];
      ratios := ratios - {c.model};
    } else {
      ratios := ratios[c.model := c.value];
      prices := prices - {c.model};
    }
    options := tables[ModelPrice := prices][ModelRatio := ratios];
    options := SetRatios(options, tables, c);
  }

  method SetRatios(start: Tables, ghost tables: Tables, c: Change) returns (options: Tables)
    requires Full(tables) && Partly(start, tables, c, 2)
    ensures options == Options(tables, c)
  {
    OneRatio(start, tables, c, CompletionRatio);
    options := WithRatio(start, CompletionRatio, c);
    OneRatio(options, tables, c, CacheRatio);
    options := WithRatio(options, CacheRatio, c);
    OneRatio(options, tables, c, CreateCacheRatio);
    options := WithRatio(options, CreateCacheRatio, c);
    OneRatio(options, tables, c, ImageRatio);
    options := WithRatio(options, ImageRatio, c);
    OneRatio(options, tables, c, AudioRatio);
    options := WithRatio(options, AudioRatio, c);
    OneRatio(options, tables, c, AudioCompletionRatio);
    options := WithRatio(options, AudioCompletionRatio, c);
    AllFields(options, tables, c);
  }

  lemma {:induction false} AllFields(options: Tables, tables: Tables, c: Change)
    requires Full(tables) && Partly(options, tables, c, 8)
    ensures options == Options(tables, c)
  {
    assert forall f: Field :: Rank(f) < 8;
  }

  /** One table against one set of locked names, name by name. */
  method FilterTable(proposed: Table, current: Table, locks: set<string>, ignored: set<string>)
      returns (filtered: Table, skipped: set<string>)
    ensures filtered == Restored(proposed, current, locks)
    ensures skipped == ignored + set n | n in locks && Entry(proposed, n) != Entry(current, n)
  {
    filtered, skipped := proposed, ignored;
    var left := locks;
    while left != {}
      invariant left <= locks
      invariant forall n :: n in locks - left ==> Entry(filtered, n) == Entry(current, n)
      invariant forall n :: n !in locks - left ==> Entry(filtered, n) == Entry(proposed, n)
      invariant skipped == ignored + set n | n in locks - left && Entry(proposed, n) != Entry(current, n)
    {
      var n :| n in left;
      left := left - {n};
      if Entry(filtered, n) != Entry(current, n) {
        skipped := skipped + {n};
        if n in current {
          filtered := filtered[n := current[n]];
        } else {
          filtered := filtered - {n};
        }
      }
    }
    SameEntries(filtered, proposed, current, locks);
  }

  lemma {:induction false} SameEntries(filtered: Table, proposed: Table, current: Table, locks: set<string>)
    requires forall n :: n in locks ==> Entry(filtered, n) == Entry(current, n)
    requires forall n :: n !in locks ==> Entry(filtered, n) == Entry(proposed, n)
    ensures filtered == Restored(proposed, current, locks)
  {
    forall n ensures Entry(filtered, n) == Entry(Restored(proposed, current, locks), n) {
      RestoredEntry(proposed, current, locks, n);
    }
    EntriesDecide(filtered, Restored(proposed, current, locks));
  }

  lemma {:induction false} EntriesDecide(a: Table, b: Table)
    requires forall n :: Entry(a, n) == Entry(b, n)
    ensures a == b
  {
    assert forall n :: n in a ==> Entry(a, n).Some?;
    assert forall n :: n in b ==> Entry(b, n).Some?;
  }

  method FilterTables(proposed: Tables, current: Tables, locks: set<string>)
    returns (filtered: Tables, ignored: set<string>)
    requires Full(proposed) && Full(current)
    ensures filtered == Filtered(proposed, current, locks) && ignored == Ignored(proposed, current, locks)
  {
    filtered, ignored := proposed, {};
    var left := proposed.Keys;
    while left != {}
      invariant left <= proposed.Keys && filtered.Keys == proposed.Keys
      invariant forall f :: f in left ==> filtered[f] == proposed[f]
      invariant forall f :: f in proposed.Keys - left ==> filtered[f] == Restored(proposed[f], current[f], locks)
      invariant forall n :: n in ignored <==> n in locks && DiffersOutside(proposed, current, n, left)
    {
      var f :| f in left;
      var table;
      ghost var before := ignored;
      table, ignored := FilterTable(proposed[f], current[f], locks, ignored);
      forall n ensures n in ignored <==> n in locks && DiffersOutside(proposed, current, n, left - {f}) {
        assert n in ignored <==> n in before || (n in locks && Entry(proposed[f], n) != Entry(current[f], n));
        OneMoreField(proposed, current, n, left, f);
      }
      left := left - {f};
      filtered := filtered[f := table];
    }
    forall n ensures n in ignored <==> n in Ignored(proposed, current, locks) {
      assert DiffersOutside(proposed, current, n, {}) <==> Differs(proposed, current, n);
    }
  }

  ghost predicate DiffersOutside(proposed: Tables, current: Tables, model: string, left: set<Field>)
    requires Full(proposed) && Full(current)
  {
    exists f: Field :: f !in left && Entry(proposed[f], model) != Entry(current[f], model)
  }

  lemma {:induction false} OneMoreField(proposed: Tables, current: Tables, model: string, left: set<Field>, f: Field)
    requires Full(proposed) && Full(current) && f in left
    ensures DiffersOutside(proposed, current, model, left - {f})
            <==> DiffersOutside(proposed, current, model, left) || Entry(proposed[f], model) != Entry(current[f], model)
  {
  }

  datatype Reply = Refused | Written(tables: Tables, ignored: set<string>)

  /** The change is refused when the model is unlocked and its state is not the
      expected one. */
  predicate Stale(c: Change, seen: Tables, locks: set<string>)
    requires Full(seen)
  {
    c.model !in locks && (c.expected.None? || CurrentState(seen, c.model) != c.expected.value)
  }

  /** One apply, with the tables as they are when the state is compared, when they are
      copied, and when the new ones are written under the update lock. The first two
      are read table by table, so `seen` and `copied` are any mix of moments: each
      table is the one its own read found. */
  ghost function Outcome(
    c: Change, seen: Tables, seenLocks: set<string>, copied: Tables, current: Tables, locks: set<string>): Reply
    requires Full(seen) && Full(copied) && Full(current)
  {
    if Stale(c, seen, seenLocks) then Refused
    else
      var proposed := Options(copied, c);
      Written(Filtered(proposed, current, locks), Ignored(proposed, current, locks))
  }

  /** The price tables and locks of the process. */
  class PriceBook {
    var tables: Tables
    var locks: set<string>

    constructor (tables: Tables, locks: set<string>)
      ensures this.tables == tables && this.locks == locks
    {
      this.tables, this.locks := tables, locks;
    }

    /** An apply during which nothing else writes. */
    method Apply(c: Change) returns (r: Reply)
      requires Full(tables)
      modifies this`tables
      ensures Full(tables)
      ensures r == Outcome(c, old(tables), locks, old(tables), old(tables), locks)
      ensures tables == if r.Refused? then old(tables) else r.tables
    {
      if Stale(c, tables, locks) {
        return Refused;
      }
      var options := BuildOptions(tables, c);
      var accepted, ignored := FilterTables(options, tables, locks);
      tables := accepted;
      r := Written(accepted, ignored);
    }
  }

  // ----- What is written ----------------------------------------------------

  /** Every entry after a write: locked models keep the entry current at the write,
      the model gets what was asked, every other model gets its copied entry. */
  lemma {:induction false} WrittenEntry(
    c: Change, copied: Tables, current: Tables, locks: set<string>, f: Field, model: string)
    requires Full(copied) && Full(current)
    ensures Entry(Filtered(Options(copied, c), current, locks)[f], model)
            == if model in locks then Entry(current[f], model)
               else if model == c.model then Wanted(f, Entry(copied[f], model), c)
               else Entry(copied[f], model)
  {
    EditedEntry(f, copied[f], c, model);
    RestoredEntry(Options(copied, c)[f], current[f], locks, model);
  }

  ghost predicate SameFor(a: Tables, b: Tables, model: string)
    requires Full(a) && Full(b)
  {
    forall f: Field :: Entry(a[f], model) == Entry(b[f], model)
  }

  /** Applying is not atomic: another model keeps what was written to it between the
      copy and the write exactly when it is locked or nothing was. */
  lemma {:induction false} OthersKeepIff(c: Change, copied: Tables, current: Tables, locks: set<string>, model: string)
    requires Full(copied) && Full(current) && model != c.model
    ensures SameFor(Filtered(Options(copied, c), current, locks), current, model)
            <==> model in locks || SameFor(copied, current, model)
  {
    forall f: Field
      ensures Entry(Filtered(Options(copied, c), current, locks)[f], model)
              == if model in locks then Entry(current[f], model) else Entry(copied[f], model)
    {
      WrittenEntry(c, copied, current, locks, f, model);
    }
  }

  /** An unlocked model ends in the previewed state exactly when each extra ratio the
      change leaves alone was copied with the value the preview saw. It is then in
      just one of the price and ratio tables. */
  lemma {:induction false} PreviewHonouredIff(
    c: Change, from: State, copied: Tables, current: Tables, locks: set<string>)
    requires WellFormed(c) && Full(copied) && Full(current) && c.model !in locks && HasExtras(from.ratios)
    ensures var after := Filtered(Options(copied, c), current, locks);
            && (CurrentState(after, c.model) == NextState(from, c)
                <==> forall f :: Extra(f) && f !in c.ratios ==> Number(copied[f], c.model) == from.ratios[f])
            && (c.model in after[ModelPrice] <==> c.fixed) && (c.model in after[ModelRatio] <==> !c.fixed)
  {
    var after := Filtered(Options(copied, c), current, locks);
    forall f: Field ensures Entry(after[f], c.model) == Wanted(f, Entry(copied[f], c.model), c) {
      WrittenEntry(c, copied, current, locks, f, c.model);
    }
    RatiosAfter(c, from, copied, after);
    assert Entry(after[ModelPrice], c.model) == Wanted(ModelPrice, Entry(copied[ModelPrice], c.model), c);
    assert Entry(after[ModelRatio], c.model) == Wanted(ModelRatio, Entry(copied[ModelRatio], c.model), c);
  }

  lemma {:induction false} RatiosAfter(c: Change, from: State, copied: Tables, after: Tables)
    requires WellFormed(c) && Full(copied) && Full(after) && HasExtras(from.ratios)
    requires forall f: Field :: Entry(after[f], c.model) == Wanted(f, Entry(copied[f], c.model), c)
    ensures CurrentState(after, c.model).ratios == NextState(from, c).ratios
            <==> forall f :: Extra(f) && f !in c.ratios ==> Number(copied[f], c.model) == from.ratios[f]
  {
    var next := NextState(from, c).ratios;
    var now := CurrentState(after, c.model).ratios;
    assert HasExtras(next) && HasExtras(now);
    forall f | Extra(f)
      ensures now[f] == (if f in c.ratios then c.ratios[f] else Number(copied[f], c.model))
      ensures next[f] == if f in c.ratios then c.ratios[f] else from.ratios[f]
    {
      assert Entry(after[f], c.model) == Wanted(f, Entry(copied[f], c.model), c);
    }
  }

  /** Preparing a change records the state its preview was made from. */
  function Prepared(c: Change, t: Tables): Change
    requires Full(t)
  {
    c.(expected := Some(CurrentState(t, c.model)))
  }

  /** What is previewed is what is applied. A change prepared on some tables and
      applied later, the model unlocked and nothing written meanwhile: it is refused
      exactly when the model's state is no longer the one previewed, and otherwise
      leaves the model in the previewed next state, in one of the price and ratio
      tables, every other model untouched, and reports nothing as ignored for it. */
  lemma {:induction false} PreviewIsApplied(c: Change, shown: Tables, now: Tables, locks: set<string>)
    requires WellFormed(c) && Full(shown) && Full(now) && c.model !in locks
    ensures var r := Outcome(Prepared(c, shown), now, locks, now, now, locks);
            && (r.Refused? <==> CurrentState(now, c.model) != CurrentState(shown, c.model))
            && (r.Written? ==>
                  && CurrentState(r.tables, c.model) == NextState(CurrentState(shown, c.model), c)
                  && (c.model in r.tables[ModelPrice] <==> c.model !in r.tables[ModelRatio])
                  && (forall model :: model != c.model ==> SameFor(r.tables, now, model))
                  && c.model !in r.ignored)
  {
    var p := Prepared(c, shown);
    if CurrentState(now, c.model) == CurrentState(shown, c.model) {
      var from := CurrentState(shown, c.model);
      assert forall f :: Extra(f) ==> CurrentState(now, c.model).ratios[f] == Number(now[f], c.model);
      PreviewHonouredIff(p, from, now, now, locks);
      OthersUntouched(p, now, locks);
    }
  }

  lemma {:induction false} OthersUntouched(c: Change, now: Tables, locks: set<string>)
    requires Full(now)
    ensures forall model :: model != c.model ==> SameFor(Filtered(Options(now, c), now, locks), now, model)
  {
    forall model | model != c.model ensures SameFor(Filtered(Options(now, c), now, locks), now, model) {
      OthersKeepIff(c, now, now, locks, model);
    }
  }

  /** A model locked by the time of the write keeps every entry, whatever was asked,
      and is reported as ignored exactly when the change would have altered it. */
  lemma {:induction false} LockedModelKeeps(c: Change, copied: Tables, current: Tables, locks: set<string>)
    requires Full(copied) && Full(current) && c.model in locks
    ensures SameFor(Filtered(Options(copied, c), current, locks), current, c.model)
    ensures c.model in Ignored(Options(copied, c), current, locks)
            <==> exists f: Field :: Wanted(f, Entry(copied[f], c.model), c) != Entry(current[f], c.model)
  {
    forall f: Field
      ensures Entry(Filtered(Options(copied, c), current, locks)[f], c.model) == Entry(current[f], c.model)
      ensures Entry(Options(copied, c)[f], c.model) == Wanted(f, Entry(copied[f], c.model), c)
    {
      WrittenEntry(c, copied, current, locks, f, c.model);
      EditedEntry(f, copied[f], c, c.model);
    }
  }

  // ----- Runs of changes ----------------------------------------------------

  ghost function Applied(t: Tables, locks: set<string>, c: Change): (r: Tables)
    requires Full(t)
    ensures Full(r)
  {
    var outcome := Outcome(c, t, locks, t, t, locks);
    if outcome.Refused? then t else outcome.tables
  }

  ghost function AppliedAll(t: Tables, locks: set<string>, changes: seq<Change>): (r: Tables)
    requires Full(t)
    ensures Full(r)
    decreases |changes|
  {
    if changes == [] then t else AppliedAll(Applied(t, locks, changes[0]), locks, changes[1..])
  }

  /** A model never has both a price and a ratio. */
  ghost predicate Exclusive(t: Tables, model: string)
    requires Full(t)
  {
    !(model in t[ModelPrice] && model in t[ModelRatio])
  }

  lemma {:induction false} OneApply(t: Tables, locks: set<string>, c: Change, model: string)
    requires Full(t)
    ensures model in locks || model != c.model ==> SameFor(Applied(t, locks, c), t, model)
    ensures Exclusive(t, model) ==> Exclusive(Applied(t, locks, c), model)
  {
    if !Stale(c, t, locks) {
      var after := Filtered(Options(t, c), t, locks);
      forall f: Field
        ensures Entry(after[f], model) ==
                  if model in locks || model != c.model then Entry(t[f], model) else Wanted(f, Entry(t[f], model), c)
      {
        WrittenEntry(c, t, t, locks, f, model);
      }
      assert Entry(after[ModelPrice], model).Some? <==> model in after[ModelPrice];
      assert Entry(after[ModelRatio], model).Some? <==> model in after[ModelRatio];
    }
  }

  /** Over every run of changes, models that are locked or never named keep every
      entry, and no model gains both a price and a ratio. */
  lemma {:induction false} RunKeeps(t: Tables, locks: set<string>, changes: seq<Change>, model: string)
    requires Full(t)
    ensures model in locks || (forall c :: c in changes ==> c.model != model) ==>
              SameFor(AppliedAll(t, locks, changes), t, model)
    ensures Exclusive(t, model) ==> Exclusive(AppliedAll(t, locks, changes), model)
    decreases |changes|
  {
    if changes != [] {
      OneApply(t, locks, changes[0], model);
      RunKeeps(Applied(t, locks, changes[0]), locks, changes[1..], model);
    }
  }
}
