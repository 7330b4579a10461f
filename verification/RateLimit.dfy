/** The in-memory fixed-window limiter (common/rate-limit.go) on top of its
    byte-bounded least-recently-used cache (pkg/cachex/byte_cache.go). */
module RateLimit {
  import opened Basics

  const MAX_KEYS := 65536
  const MAX_BYTES := 8388608
  const OVERHEAD := 40
  const SECOND := 1000000000

  datatype Window = Window(count: int, started: int)

  datatype Slot = Slot(key: string, window: Window, expires: int)

  /** The cache, most recently used first. */
  type Cache = seq<Slot>

  function Weight(key: string): nat {
    |key| + OVERHEAD
  }

  function Bytes(cache: Cache): nat {
    if cache == [] then 0 else Weight(cache[0].key) + Bytes(cache[1..])
  }

  predicate Fits(cache: Cache) {
    |cache| <= MAX_KEYS && Bytes(cache) <= MAX_BYTES
  }

  function Find(cache: Cache, key: string): Option<Slot> {
    if cache == [] then None
    else if cache[0].key == key then Some(cache[0])
    else Find(cache[1..], key)
  }

  /** One slot a key, each with at least one admitted request. */
  ghost predicate Proper(cache: Cache) {
    cache != [] ==> cache[0].window.count >= 1 && Find(cache[1..], cache[0].key).None? && Proper(cache[1..])
  }

  function Without(cache: Cache, key: string): Cache {
    if cache == [] then []
    else if cache[0].key == key then Without(cache[1..], key)
    else [cache[0]] + Without(cache[1..], key)
  }

  /** Evicts from the least recently used end until the budgets are met: what is
      left is the longest prefix that fits. */
  function Evicted(cache: Cache): (r: Cache)
    ensures r <= cache && Fits(r)
    ensures |r| < |cache| ==> !Fits(cache[..|r| + 1])
  {
    if Fits(cache) then cache
    else
      var shorter := cache[..|cache| - 1];
      var r := Evicted(shorter);
      assert |r| < |shorter| ==> shorter[..|r| + 1] == cache[..|r| + 1];
      assert |r| == |shorter| ==> cache[..|r| + 1] == cache;
      r
  }

  function Stored(cache: Cache, slot: Slot): Cache {
    Evicted([slot] + Without(cache, slot.key))
  }

  // ----- Requests and checks ------------------------------------------------

  /** Ask is Request: the clock is read when it begins (asked), under the lock to
      test expiry (looked) and under the lock to set the next expiry (kept).
      Look is Check: read under the lock (looked) and again for the age (since). */
  datatype Call =
    | Ask(key: string, max: int, duration: int, asked: int, looked: int, kept: int)
    | Look(key: string, max: int, duration: int, looked: int, since: int)

  function Live(found: Option<Slot>, looked: int): Option<Window> {
    if found.None? || looked >= found.value.expires then None else Some(found.value.window)
  }

  function NextWindow(found: Option<Window>, asked: int, max: int, length: int): (Window, bool) {
    var current := if found.None? || asked - found.value.started >= length then Window(0, asked) else found.value;
    if current.count < max then (Window(current.count + 1, current.started), true) else (current, false)
  }

  function Requested(cache: Cache, c: Call): (Cache, bool)
    requires c.Ask?
  {
    if c.max == 0 then (cache, true)
    else if c.max < 0 || c.duration <= 0 then (cache, false)
    else
      var (next, allowed) := NextWindow(Live(Find(cache, c.key), c.looked), c.asked, c.max, c.duration * SECOND);
      if Weight(c.key) > MAX_BYTES then (Without(cache, c.key), false)
      else
        var after := Stored(cache, Slot(c.key, next, c.kept + c.duration * SECOND));
        (after, Find(after, c.key).Some? && allowed && next.count > 0)
  }

  function Loaded(cache: Cache, key: string, looked: int): Cache {
    var found := Find(cache, key);
    if found.None? then cache
    else if looked >= found.value.expires then Without(cache, key)
    else [found.value] + Without(cache, key)
  }

  function Checked(cache: Cache, c: Call): (Cache, bool)
    requires c.Look?
  {
    if c.max == 0 then (cache, true)
    else if c.max < 0 || c.duration <= 0 then (cache, false)
    else
      var found := Live(Find(cache, c.key), c.looked);
      (Loaded(cache, c.key, c.looked),
       found.None? || c.since - found.value.started >= c.duration * SECOND || found.value.count < c.max)
  }

  function Answered(cache: Cache, c: Call): (Cache, bool) {
    if c.Ask? then Requested(cache, c) else Checked(cache, c)
  }

  // ----- The cache keeps its budgets ----------------------------------------

  ghost predicate Sound(cache: Cache) {
    Proper(cache) && Fits(cache)
  }

  lemma {:induction false} FindWithout(cache: Cache, key: string, other: string)
    ensures Find(Without(cache, key), other) == if other == key then None else Find(cache, other)
  {
    if cache != [] {
      FindWithout(cache[1..], key, other);
    }
  }

  lemma {:induction false} FindPrefix(cache: Cache, n: nat, key: string)
    requires n <= |cache|
    ensures Find(cache[..n], key).Some? ==> Find(cache[..n], key) == Find(cache, key)
    decreases n
  {
    if n > 0 {
      assert cache[..n][1..] == cache[1..][..n - 1];
      FindPrefix(cache[1..], n - 1, key);
    }
  }

  lemma {:induction false} WithoutKeeps(cache: Cache, key: string)
    requires Proper(cache)
    ensures Proper(Without(cache, key))
    ensures Find(cache, key).None? ==> Without(cache, key) == cache
    ensures Bytes(cache) == Bytes(Without(cache, key)) + (if Find(cache, key).Some? then Weight(key) else 0)
    ensures |cache| == |Without(cache, key)| + (if Find(cache, key).Some? then 1 else 0)
  {
    if cache != [] {
      WithoutKeeps(cache[1..], key);
      FindWithout(cache[1..], key, cache[0].key);
    }
  }

  lemma {:induction false} PrefixKeeps(cache: Cache, n: nat)
    requires Proper(cache) && n <= |cache|
    ensures Proper(cache[..n])
    decreases n
  {
    if n > 0 {
      assert cache[..n][1..] == cache[1..][..n - 1];
      PrefixKeeps(cache[1..], n - 1);
      FindPrefix(cache[1..], n - 1, cache[0].key);
    }
  }

  /** Storing keeps the keys distinct and both budgets, and a key that fits at all
      is never the one evicted. */
  lemma {:induction false} StoreKeeps(cache: Cache, slot: Slot)
    requires Sound(cache) && slot.window.count >= 1
    ensures Sound(Stored(cache, slot))
    ensures Weight(slot.key) <= MAX_BYTES ==> Find(Stored(cache, slot), slot.key) == Some(slot)
  {
    WithoutKeeps(cache, slot.key);
    FindWithout(cache, slot.key, slot.key);
    var all := [slot] + Without(cache, slot.key);
    assert all[1..] == Without(cache, slot.key);
    var r := Evicted(all);
    assert r == all[..|r|];
    PrefixKeeps(all, |r|);
    if Weight(slot.key) <= MAX_BYTES {
      AloneFits(slot);
      assert all[..1] == [slot];
    }
  }

  lemma {:induction false} AloneFits(slot: Slot)
    ensures Fits([slot]) <==> Weight(slot.key) <= MAX_BYTES
  {
    var all := [slot];
    assert all[1..] == [];
    assert Bytes(all) == Weight(all[0].key) + Bytes(all[1..]);
  }

  lemma {:induction false} FoundIsProper(cache: Cache, key: string)
    requires Proper(cache) && Find(cache, key).Some?
    ensures Find(cache, key).value.key == key && Find(cache, key).value.window.count >= 1
    ensures Weight(key) <= Bytes(cache)
  {
    if cache[0].key != key {
      FoundIsProper(cache[1..], key);
    }
  }

  lemma {:induction false} NextIsProper(found: Option<Window>, asked: int, max: int, length: int)
    requires max >= 1 && (found.Some? ==> found.value.count >= 1)
    ensures NextWindow(found, asked, max, length).0.count >= 1
  {
  }

  /** Check's answer is Request's answer at the same instant exactly for keys that
      can be stored; for a longer key Check says yes and Request says no. */
  lemma {:induction false} CheckPredictsRequest(cache: Cache, key: string, max: int, duration: int, now: int)
    requires Sound(cache)
    ensures Checked(cache, Look(key, max, duration, now, now)).1
            == Requested(cache, Ask(key, max, duration, now, now, now)).1
            <==> max <= 0 || duration <= 0 || Weight(key) <= MAX_BYTES
  {
    if max > 0 && duration > 0 {
      var found := Find(cache, key);
      if found.Some? {
        FoundIsProper(cache, key);
      }
      var live := Live(found, now);
      NextIsProper(live, now, max, duration * SECOND);
      var next := NextWindow(live, now, max, duration * SECOND).0;
      if Weight(key) <= MAX_BYTES {
        StoreKeeps(cache, Slot(key, next, now + duration * SECOND));
      }
    }
  }

  // ----- Enough room means no eviction --------------------------------------

  function TotalWeight(keys: seq<string>): nat {
    if keys == [] then 0 else Weight(keys[0]) + TotalWeight(keys[1..])
  }

  /** All the keys ever used fit together. */
  ghost predicate Affordable(keys: seq<string>) {
    |keys| <= MAX_KEYS && TotalWeight(keys) <= MAX_BYTES
  }

  ghost predicate Within(cache: Cache, keys: seq<string>) {
    forall k :: Find(cache, k).Some? ==> k in keys
  }

  lemma {:induction false} Budgeted(cache: Cache, keys: seq<string>)
    requires Proper(cache) && Within(cache, keys)
    ensures Bytes(cache) <= TotalWeight(keys) && |cache| <= |keys|
    decreases |keys|
  {
    if keys == [] {
      if cache != [] {
        assert Find(cache, cache[0].key).Some?;
      }
    } else {
      WithoutKeeps(cache, keys[0]);
      forall k ensures Find(Without(cache, keys[0]), k).Some? ==> k in keys[1..] {
        FindWithout(cache, keys[0], k);
      }
      Budgeted(Without(cache, keys[0]), keys[1..]);
    }
  }

  lemma {:induction false} MemberWeight(keys: seq<string>, key: string)
    requires key in keys
    ensures Weight(key) <= TotalWeight(keys)
  {
    if keys[0] != key {
      MemberWeight(keys[1..], key);
    }
  }

  ghost predicate Roomy(cache: Cache, keys: seq<string>) {
    Proper(cache) && Within(cache, keys) && Affordable(keys)
  }

  lemma {:induction false} FindFront(slot: Slot, rest: Cache, k: string)
    ensures Find([slot] + rest, k) == if k == slot.key then Some(slot) else Find(rest, k)
  {
    assert ([slot] + rest)[1..] == rest;
  }

  lemma {:induction false} FrontKeeps(cache: Cache, slot: Slot, keys: seq<string>)
    requires Roomy(cache, keys) && slot.key in keys && slot.window.count >= 1
    ensures Roomy([slot] + Without(cache, slot.key), keys)
    ensures Stored(cache, slot) == [slot] + Without(cache, slot.key)
  {
    var rest := Without(cache, slot.key);
    var all := [slot] + rest;
    WithoutKeeps(cache, slot.key);
    FindWithout(cache, slot.key, slot.key);
    assert all[1..] == rest;
    forall k ensures Find(all, k).Some? ==> k in keys {
      FindFront(slot, rest, k);
      FindWithout(cache, slot.key, k);
    }
    Budgeted(all, keys);
  }

  lemma {:induction false} DropKeeps(cache: Cache, key: string, keys: seq<string>)
    requires Roomy(cache, keys)
    ensures Roomy(Without(cache, key), keys)
  {
    WithoutKeeps(cache, key);
    forall k ensures Find(Without(cache, key), k).Some? ==> k in keys {
      FindWithout(cache, key, k);
    }
  }

  // ----- One key on its own -------------------------------------------------

  /** What a call does to the slot of its own key when nothing is evicted. */
  function Track(found: Option<Slot>, c: Call): (Option<Slot>, bool) {
    if c.max == 0 then (found, true)
    else if c.max < 0 || c.duration <= 0 then (found, false)
    else if c.Ask? then
      var (next, allowed) := NextWindow(Live(found, c.looked), c.asked, c.max, c.duration * SECOND);
      (Some(Slot(c.key, next, c.kept + c.duration * SECOND)), allowed)
    else
      var live := Live(found, c.looked);
      (if live.None? then None else found,
       live.None? || c.since - live.value.started >= c.duration * SECOND || live.value.count < c.max)
  }

  lemma {:induction false} AskTracks(cache: Cache, c: Call, keys: seq<string>, k: string)
    requires Roomy(cache, keys) && c.key in keys && c.Ask?
    ensures Roomy(Requested(cache, c).0, keys)
    ensures Find(Requested(cache, c).0, k) == if k == c.key then Track(Find(cache, k), c).0 else Find(cache, k)
    ensures Requested(cache, c).1 == Track(Find(cache, c.key), c).1
  {
    if c.max > 0 && c.duration > 0 {
      var found := Find(cache, c.key);
      if found.Some? {
        FoundIsProper(cache, c.key);
      }
      MemberWeight(keys, c.key);
      var live := Live(found, c.looked);
      NextIsProper(live, c.asked, c.max, c.duration * SECOND);
      var slot := Slot(c.key, NextWindow(live, c.asked, c.max, c.duration * SECOND).0, c.kept + c.duration * SECOND);
      FrontKeeps(cache, slot, keys);
      FindFront(slot, Without(cache, c.key), k);
      FindFront(slot, Without(cache, c.key), c.key);
      FindWithout(cache, c.key, k);
    }
  }

  lemma {:induction false} LookTracks(cache: Cache, c: Call, keys: seq<string>, k: string)
    requires Roomy(cache, keys) && c.Look?
    ensures Roomy(Checked(cache, c).0, keys)
    ensures Find(Checked(cache, c).0, k) == if k == c.key then Track(Find(cache, k), c).0 else Find(cache, k)
    ensures Checked(cache, c).1 == Track(Find(cache, c.key), c).1
  {
    var found := Find(cache, c.key);
    if c.max > 0 && c.duration > 0 && found.Some? {
      FoundIsProper(cache, c.key);
      FindWithout(cache, c.key, k);
      if c.looked >= found.value.expires {
        DropKeeps(cache, c.key, keys);
      } else {
        FrontKeeps(cache, found.value, keys);
        FindFront(found.value, Without(cache, c.key), k);
      }
    }
  }

  /** With room for every key in use, a key's slot and answers depend on that
      key's own calls alone. */
  lemma {:induction false} KeysAreIndependent(cache: Cache, c: Call, keys: seq<string>, k: string)
    requires Roomy(cache, keys) && c.key in keys
    ensures Roomy(Answered(cache, c).0, keys)
    ensures Find(Answered(cache, c).0, k) == if k == c.key then Track(Find(cache, k), c).0 else Find(cache, k)
    ensures Answered(cache, c).1 == Track(Find(cache, c.key), c).1
  {
    if c.Ask? {
      AskTracks(cache, c, keys, k);
    } else {
      LookTracks(cache, c, keys, k);
    }
  }

  // ----- Whole traces -------------------------------------------------------

  /** The keys in use, the key watched with its limit, and by how much a call may
      have read the clock before the previous holder of the lock was done. */
  datatype Setting = Setting(keys: seq<string>, key: string, max: int, duration: int, overlap: nat)

  function Length(s: Setting): int {
    s.duration * SECOND
  }

  ghost predicate Limited(s: Setting) {
    s.max > 0 && s.duration > 0 && Affordable(s.keys) && s.key in s.keys
  }

  /** The clock never runs backwards under the lock, and the watched key always
      comes with the same limit. */
  ghost predicate InTurn(s: Setting, c: Call, clock: int) {
    && c.key in s.keys
    && clock <= c.looked
    && (c.Ask? ==> c.asked <= c.looked <= c.kept && clock <= c.asked + s.overlap)
    && (c.Ask? && c.key == s.key ==> c.max == s.max && c.duration == s.duration)
  }

  function Later(c: Call): int {
    if c.Ask? then c.kept else c.looked
  }

  ghost predicate IsTrace(s: Setting, calls: seq<Call>, clock: int) {
    calls != [] ==> InTurn(s, calls[0], clock) && IsTrace(s, calls[1..], Later(calls[0]))
  }

  predicate Counted(c: Call, allowed: bool, key: string, from: int, till: int) {
    c.Ask? && c.key == key && allowed && from <= c.looked < till
  }

  /** Requests for the key admitted with the lock held in [from, till). */
  function Admitted(cache: Cache, calls: seq<Call>, key: string, from: int, till: int): nat
    decreases |calls|
  {
    if calls == [] then 0
    else
      var (after, allowed) := Answered(cache, calls[0]);
      (if Counted(calls[0], allowed, key, from, till) then 1 else 0) + Admitted(after, calls[1..], key, from, till)
  }

  function Asks(calls: seq<Call>, key: string, till: int): nat {
    if calls == [] then 0
    else (if Counted(calls[0], true, key, calls[0].looked, till) then 1 else 0) + Asks(calls[1..], key, till)
  }

  lemma {:induction false} NothingLater(s: Setting, cache: Cache, calls: seq<Call>, clock: int, from: int, till: int)
    requires IsTrace(s, calls, clock) && till <= clock
    ensures Admitted(cache, calls, s.key, from, till) == 0 && Asks(calls, s.key, till) == 0
    decreases |calls|
  {
    if calls != [] {
      NothingLater(s, Answered(cache, calls[0]).0, calls[1..], Later(calls[0]), from, till);
    }
  }

  /** The slot of the watched key: a window that began in the past, holding at
      most the limit and living at least its whole length. */
  ghost predicate Keeps(s: Setting, slot: Slot, clock: int) {
    1 <= slot.window.count <= s.max && slot.window.started <= clock && slot.window.started + Length(s) <= slot.expires
  }

  /** A call before the window's end counts in that window. */
  lemma {:induction false} SameWindow(s: Setting, slot: Slot, clock: int, c: Call)
    requires Limited(s) && Keeps(s, slot, clock) && InTurn(s, c, clock) && c.key == s.key
    requires c.looked < slot.window.started + Length(s)
    ensures var after := Track(Some(slot), c);
            && after.0.Some? && Keeps(s, after.0.value, Later(c)) && after.0.value.window.started == slot.window.started
            && after.0.value.window.count == slot.window.count + (if c.Ask? && slot.window.count < s.max then 1 else 0)
            && (c.Ask? ==> (after.1 <==> slot.window.count < s.max))
  {
  }

  /** While a window lasts the answers are exactly first come, first served up to
      the limit: of the further requests before its end, the first max - count are
      admitted and no others. */
  lemma {:induction false} WindowServesLimit(s: Setting, cache: Cache, calls: seq<Call>, clock: int, from: int)
    requires Limited(s) && Roomy(cache, s.keys) && IsTrace(s, calls, clock) && from <= clock
    requires Find(cache, s.key).Some? && Keeps(s, Find(cache, s.key).value, clock)
    ensures var window := Find(cache, s.key).value.window;
            Admitted(cache, calls, s.key, from, window.started + Length(s))
            == Min(s.max - window.count, Asks(calls, s.key, window.started + Length(s)))
    decreases |calls|
  {
    if calls != [] {
      var c := calls[0];
      var slot := Find(cache, s.key).value;
      var till := slot.window.started + Length(s);
      KeysAreIndependent(cache, c, s.keys, s.key);
      if c.looked >= till {
        NothingLater(s, Answered(cache, c).0, calls[1..], Later(c), from, till);
      } else {
        if c.key == s.key {
          SameWindow(s, slot, clock, c);
        }
        WindowServesLimit(s, Answered(cache, c).0, calls[1..], Later(c), from);
      }
    }
  }

  /** The same count for one key kept by itself. */
  function AdmittedAlone(found: Option<Slot>, calls: seq<Call>, from: int, till: int): nat
    decreases |calls|
  {
    if calls == [] then 0
    else
      var (after, allowed) := Track(found, calls[0]);
      (if calls[0].Ask? && allowed && from <= calls[0].looked < till then 1 else 0)
      + AdmittedAlone(after, calls[1..], from, till)
  }

  function CallsFor(calls: seq<Call>, key: string): seq<Call> {
    if calls == [] then []
    else if calls[0].key == key then [calls[0]] + CallsFor(calls[1..], key)
    else CallsFor(calls[1..], key)
  }

  ghost predicate AllWithin(calls: seq<Call>, keys: seq<string>) {
    calls != [] ==> calls[0].key in keys && AllWithin(calls[1..], keys)
  }

  /** With room for every key in use, the admissions of one key over a whole trace
      are those of a limiter that sees only that key's calls. */
  lemma {:induction false} TracesAreIndependent(
    cache: Cache, calls: seq<Call>, keys: seq<string>, key: string, from: int, till: int)
    requires Roomy(cache, keys) && AllWithin(calls, keys)
    ensures Admitted(cache, calls, key, from, till) == AdmittedAlone(Find(cache, key), CallsFor(calls, key), from, till)
    decreases |calls|
  {
    if calls != [] {
      KeysAreIndependent(cache, calls[0], keys, key);
      TracesAreIndependent(Answered(cache, calls[0]).0, calls[1..], keys, key, from, till);
      if calls[0].key == key {
        AloneStep(Find(cache, key), calls[0], CallsFor(calls[1..], key), from, till);
      }
    }
  }

  lemma {:induction false} AloneStep(found: Option<Slot>, c: Call, rest: seq<Call>, from: int, till: int)
    ensures AdmittedAlone(found, [c] + rest, from, till)
            == (if c.Ask? && Track(found, c).1 && from <= c.looked < till then 1 else 0)
               + AdmittedAlone(Track(found, c).0, rest, from, till)
  {
    var calls := [c] + rest;
    assert calls[0] == c && calls[1..] == rest;
  }

  // ----- Expiry -------------------------------------------------------------

  /** Cache expiry, which runs from the last store and not from the window's start,
      changes an answer or a window exactly when a call that began inside the window
      reaches the cache after the expiry. It never does when calls take no time. */
  lemma {:induction false} ExpiryIsInvisible(s: Setting, slot: Slot, clock: int, c: Call)
    requires Limited(s) && Keeps(s, slot, clock) && InTurn(s, c, clock) && c.Ask? && c.key == s.key
    ensures NextWindow(Live(Some(slot), c.looked), c.asked, s.max, Length(s))
            == NextWindow(Some(slot.window), c.asked, s.max, Length(s))
            <==> c.looked < slot.expires || c.asked - slot.window.started >= Length(s)
    ensures c.asked == c.looked ==> c.looked < slot.expires || c.asked - slot.window.started >= Length(s)
  {
    if c.looked >= slot.expires && c.asked - slot.window.started < Length(s) {
      assert NextWindow(None, c.asked, s.max, Length(s)) == (Window(1, c.asked), true);
    }
  }

  // ----- Removing a key -----------------------------------------------------

  lemma {:induction false} WithoutAt(cache: Cache, i: nat, key: string)
    requires Proper(cache) && i < |cache| && cache[i].key == key && forall j :: 0 <= j < i ==> cache[j].key != key
    ensures Without(cache, key) == cache[..i] + cache[i + 1..]
    decreases i
  {
    var rest := cache[1..];
    if i == 0 {
      WithoutKeeps(rest, key);
    } else {
      WithoutAt(rest, i - 1, key);
      assert cache[..i] == [cache[0]] + rest[..i - 1];
      assert rest[i..] == cache[i + 1..];
    }
  }

  // ----- The limiter itself -------------------------------------------------

  /** One lock guards the list, so each call runs to its end. */
  class Limiter {
    var slots: seq<Slot>
    var used: int

    ghost predicate Valid()
      reads this
    {
      Sound(slots) && used == Bytes(slots)
    }

    constructor ()
      ensures Valid() && slots == []
    {
      slots, used := [], 0;
    }

    method RemoveKey(key: string)
      requires Proper(slots) && used == Bytes(slots)
      modifies this
      ensures slots == Without(old(slots), key) && used == Bytes(slots) && Proper(slots)
    {
      WithoutKeeps(slots, key);
      var i := 0;
      while i < |slots| && slots[i].key != key
        invariant 0 <= i <= |slots| && Find(slots, key) == Find(slots[i..], key)
        invariant forall j :: 0 <= j < i ==> slots[j].key != key
      {
        assert slots[i..][1..] == slots[i + 1..];
        i := i + 1;
      }
      if i < |slots| {
        WithoutAt(slots, i, key);
        used := used - Weight(key);
        slots := slots[..i] + slots[i + 1..];
      }
    }

    method Store(slot: Slot)
      requires Valid() && slot.window.count >= 1 && Weight(slot.key) <= MAX_BYTES
      modifies this
      ensures Valid() && slots == Stored(old(slots), slot)
    {
      StoreKeeps(slots, slot);
      RemoveKey(slot.key);
      slots := [slot] + slots;
      assert slots[1..] == Without(old(slots), slot.key);
      used := used + Weight(slot.key);
      Evict();
    }

    method Evict()
      requires used == Bytes(slots)
      modifies this
      ensures used == Bytes(slots) && slots == Evicted(old(slots))
    {
      ghost var target := Evicted(slots);
      while |slots| > MAX_KEYS || used > MAX_BYTES
        invariant used == Bytes(slots) && Evicted(slots) == target
        decreases |slots|
      {
        EvictOne(slots);
        used := used - Weight(slots[|slots| - 1].key);
        slots := slots[..|slots| - 1];
      }
    }

    method Request(key: string, max: int, duration: int, asked: int, looked: int, kept: int) returns (r: bool)
      requires Valid()
      modifies this
      ensures Valid() && (slots, r) == Requested(old(slots), Ask(key, max, duration, asked, looked, kept))
    {
      if max == 0 {
        return true;
      }
      if max < 0 || duration <= 0 {
        return false;
      }
      var length := duration * SECOND;
      var found := Lookup(key);
      if found.Some? {
        FoundIsProper(slots, key);
      }
      NextIsProper(Live(found, looked), asked, max, length);
      var current := Window(0, asked);
      if found.Some? && looked < found.value.expires && asked - found.value.window.started < length {
        current := found.value.window;
      }
      var allowed := current.count < max;
      if allowed {
        current := Window(current.count + 1, current.started);
      }
      if Weight(key) > MAX_BYTES {
        WithoutKeeps(slots, key);
        RemoveKey(key);
        return false;
      }
      StoreKeeps(slots, Slot(key, current, kept + length));
      Store(Slot(key, current, kept + length));
      return allowed && current.count > 0;
    }

    method Lookup(key: string) returns (found: Option<Slot>)
      ensures found == Find(slots, key)
    {
      var i := 0;
      while i < |slots|
        invariant 0 <= i <= |slots| && Find(slots, key) == Find(slots[i..], key)
      {
        assert slots[i..][1..] == slots[i + 1..];
        if slots[i].key == key {
          return Some(slots[i]);
        }
        i := i + 1;
      }
      return None;
    }

    method Check(key: string, max: int, duration: int, looked: int, since: int) returns (r: bool)
      requires Valid()
      modifies this
      ensures Valid() && (slots, r) == Checked(old(slots), Look(key, max, duration, looked, since))
    {
      if max == 0 {
        return true;
      }
      if max < 0 || duration <= 0 {
        return false;
      }
      var found := Lookup(key);
      if found.None? {
        return true;
      }
      FoundIsProper(slots, key);
      WithoutKeeps(slots, key);
      FindWithout(slots, key, key);
      RemoveKey(key);
      if looked >= found.value.expires {
        return true;
      }
      slots := [found.value] + slots;
      assert slots[1..] == Without(old(slots), key);
      used := used + Weight(key);
      return since - found.value.window.started >= duration * SECOND || found.value.window.count < max;
    }
  }

  lemma {:induction false} EvictOne(cache: Cache)
    requires !Fits(cache)
    ensures cache != [] && Evicted(cache) == Evicted(cache[..|cache| - 1])
    ensures Bytes(cache) == Bytes(cache[..|cache| - 1]) + Weight(cache[|cache| - 1].key)
  {
    DropLast(cache);
  }

  lemma {:induction false} DropLast(cache: Cache)
    requires cache != []
    ensures Bytes(cache) == Bytes(cache[..|cache| - 1]) + Weight(cache[|cache| - 1].key)
  {
    if |cache| > 1 {
      var rest := cache[1..];
      DropLast(rest);
      assert cache[..|cache| - 1][1..] == rest[..|rest| - 1];
    }
  }
}
