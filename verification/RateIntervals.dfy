/** How many requests the limiter admits in an interval of any length. The clock is
    read before the lock is taken, so a call may have read it before the previous holder
    of the lock was done (the overlap of the setting) and may wait for the lock. */
module RateIntervals {
  import opened Basics
  import opened RateLimit

  // ----- The most an interval admits ----------------------------------------

  /** The most that can be admitted by the time a window opens at x after the earliest
      time a call inside the interval can come with: the limit for every whole window
      and one more, and what was left of the window the interval found. */
  function Runs(s: Setting, x: nat): nat
    requires Limited(s)
    decreases x
  {
    if x >= Length(s) then s.max + Runs(s, x - Length(s))
    else s.max + if x > 0 then s.max else 1
  }

  /** The most in t units of time while no pause lets the cache entry expire. */
  function Unbroken(s: Setting, t: nat): nat
    requires Limited(s) && t >= 1
  {
    Runs(s, t - 1 + s.overlap)
  }

  /** The most in t units of time: unbroken, or up to a pause of a whole window, after
      which a call delayed since before the pause opens an old window once more. */
  function Most(s: Setting, t: nat): nat
    requires Limited(s) && t >= 1
    decreases t, t + 1
  {
    MostPausing(s, t, if t > Length(s) then t - Length(s) else 0)
  }

  /** The same when the first pause begins within the first `upto` units of time. */
  function MostPausing(s: Setting, t: nat, upto: nat): nat
    requires Limited(s) && t >= 1 && (upto == 0 || upto + Length(s) <= t)
    decreases t, upto
  {
    if upto == 0 then Unbroken(s, t)
    else Max(MostPausing(s, t, upto - 1), Unbroken(s, upto) + Most(s, t - upto + 1 - Length(s)))
  }

  lemma {:induction false} RunsGrow(s: Setting, x: nat, y: nat)
    requires Limited(s) && x <= y
    ensures s.max + 1 <= Runs(s, x) <= Runs(s, y)
    decreases y
  {
    if y >= Length(s) {
      if x >= Length(s) {
        RunsGrow(s, x - Length(s), y - Length(s));
      } else {
        RunsGrow(s, 0, y - Length(s));
      }
    }
  }

  lemma {:induction false} PauseCounts(s: Setting, t: nat, upto: nat, t1: nat)
    requires Limited(s) && t >= 1 && 1 <= t1 <= upto && upto + Length(s) <= t
    ensures Unbroken(s, t1) + Most(s, t - t1 + 1 - Length(s)) <= MostPausing(s, t, upto)
    decreases upto
  {
    if t1 < upto {
      PauseCounts(s, t, upto - 1, t1);
    }
  }

  lemma {:induction false} UnbrokenCounts(s: Setting, t: nat, upto: nat)
    requires Limited(s) && t >= 1 && (upto == 0 || upto + Length(s) <= t)
    ensures Unbroken(s, t) <= MostPausing(s, t, upto)
    decreases upto
  {
    if upto > 0 {
      UnbrokenCounts(s, t, upto - 1);
    }
  }

  // ----- No trace admits more -----------------------------------------------

  /** All n admissions were in this window, which the interval may have found open. */
  ghost predicate InFirst(s: Setting, from: int, w: Window, n: nat) {
    n <= w.count && (n >= 2 ==> w.started + Length(s) > from - s.overlap)
  }

  /** This window opened inside the interval, after others. */
  ghost predicate InLater(s: Setting, from: int, w: Window, n: nat)
    requires Limited(s)
  {
    w.started >= from - s.overlap && n + s.max - w.count <= Runs(s, w.started - from + s.overlap)
  }

  /** No slot is left, a whole window after the last admission. */
  ghost predicate Paused(s: Setting, from: int, clock: int, n: nat)
    requires Limited(s)
  {
    clock >= from + Length(s) && n <= Runs(s, clock - Length(s) - from + s.overlap)
  }

  /** n requests have been admitted so far in [from, till). */
  ghost predicate Tally(s: Setting, from: int, till: int, found: Option<Slot>, clock: int, n: nat)
    requires Limited(s) && from < till
  {
    && (found.Some? ==> Keeps(s, found.value, clock))
    && n <= Unbroken(s, till - from)
    && (n > 0 ==>
          && from <= clock
          && (found.None? ==> Paused(s, from, clock, n))
          && (found.Some? ==>
                && found.value.window.started < till && from + Length(s) <= found.value.expires
                && (InFirst(s, from, found.value.window, n) || InLater(s, from, found.value.window, n))))
  }

  function More(from: int, till: int, c: Call, allowed: bool): nat {
    if c.Ask? && allowed && from <= c.looked < till then 1 else 0
  }

  lemma {:induction false} TallyPasses(
    s: Setting, from: int, till: int, found: Option<Slot>, clock: int, n: nat, later: int)
    requires Limited(s) && from < till && Tally(s, from, till, found, clock, n) && clock <= later
    ensures Tally(s, from, till, found, later, n)
  {
    if n > 0 && found.None? {
      RunsGrow(s, clock - Length(s) - from + s.overlap, later - Length(s) - from + s.overlap);
    }
  }

  /** Once the slot has expired the admissions are those of an unbroken interval that
      ended a whole window ago. */
  lemma {:induction false} PauseBounds(
    s: Setting, from: int, till: int, found: Option<Slot>, clock: int, n: nat, looked: int)
    requires Limited(s) && from < till && Tally(s, from, till, found, clock, n) && n > 0 && clock <= looked
    requires Live(found, looked).None?
    ensures Paused(s, from, looked, n)
  {
    if found.None? {
      RunsGrow(s, clock - Length(s) - from + s.overlap, looked - Length(s) - from + s.overlap);
    } else {
      var w := found.value.window;
      RunsGrow(s, 0, looked - Length(s) - from + s.overlap);
      if InLater(s, from, w, n) {
        RunsGrow(s, w.started - from + s.overlap, looked - Length(s) - from + s.overlap);
      }
    }
  }

  lemma {:induction false} LookKeepsTally(
    s: Setting, from: int, till: int, found: Option<Slot>, clock: int, n: nat, c: Call)
    requires Limited(s) && from < till && Tally(s, from, till, found, clock, n)
    requires c.Look? && c.key == s.key && InTurn(s, c, clock)
    ensures Tally(s, from, till, Track(found, c).0, c.looked, n)
  {
    TallyPasses(s, from, till, found, clock, n, c.looked);
    if n > 0 && Live(found, c.looked).None? {
      PauseBounds(s, from, till, found, clock, n, c.looked);
    }
  }

  lemma {:induction false} FirstKeepsTally(
    s: Setting, from: int, till: int, found: Option<Slot>, clock: int, c: Call)
    requires Limited(s) && from < till && Tally(s, from, till, found, clock, 0)
    requires c.Ask? && c.key == s.key && InTurn(s, c, clock) && c.looked < till
    ensures Tally(s, from, till, Track(found, c).0, c.kept, More(from, till, c, Track(found, c).1))
  {
    RunsGrow(s, 0, till - from - 1 + s.overlap);
  }

  lemma {:induction false} JoinKeepsTally(s: Setting, from: int, till: int, slot: Slot, clock: int, n: nat, c: Call)
    requires Limited(s) && from < till && Tally(s, from, till, Some(slot), clock, n) && n > 0
    requires c.Ask? && c.key == s.key && InTurn(s, c, clock) && c.looked < till
    requires c.looked < slot.expires && c.asked - slot.window.started < Length(s)
    ensures Tally(s, from, till, Track(Some(slot), c).0, c.kept, n + More(from, till, c, Track(Some(slot), c).1))
  {
    var w := slot.window;
    RunsGrow(s, 0, till - from - 1 + s.overlap);
    if InLater(s, from, w, n) {
      RunsGrow(s, w.started - from + s.overlap, till - from - 1 + s.overlap);
    }
  }

  lemma {:induction false} OpenKeepsTally(s: Setting, from: int, till: int, slot: Slot, clock: int, n: nat, c: Call)
    requires Limited(s) && from < till && Tally(s, from, till, Some(slot), clock, n) && n > 0
    requires c.Ask? && c.key == s.key && InTurn(s, c, clock) && c.looked < till
    requires c.looked < slot.expires && c.asked - slot.window.started >= Length(s)
    ensures Tally(s, from, till, Track(Some(slot), c).0, c.kept, n + More(from, till, c, Track(Some(slot), c).1))
  {
    var w, x := slot.window, c.asked - from + s.overlap;
    RunsGrow(s, x, till - from - 1 + s.overlap);
    if InLater(s, from, w, n) {
      var y := w.started - from + s.overlap;
      assert Runs(s, y + Length(s)) == s.max + Runs(s, y);
      RunsGrow(s, y + Length(s), x);
    } else if n >= 2 {
      RunsGrow(s, 1, x);
    } else {
      RunsGrow(s, 0, x);
    }
  }

  /** Nothing before the clock is counted, so the interval may as well begin there. */
  lemma {:induction false} BeginLater(
    s: Setting, cache: Cache, calls: seq<Call>, clock: int, from: int, later: int, till: int)
    requires IsTrace(s, calls, clock) && from <= later && (calls != [] ==> later <= calls[0].looked)
    ensures Admitted(cache, calls, s.key, from, till) == Admitted(cache, calls, s.key, later, till)
    decreases |calls|
  {
    if calls != [] {
      BeginLater(s, Answered(cache, calls[0]).0, calls[1..], Later(calls[0]), from, later, till);
    }
  }

  lemma {:induction false} TallyBounds(
    s: Setting, from: int, till: int, cache: Cache, calls: seq<Call>, clock: int, n: nat)
    requires Limited(s) && Roomy(cache, s.keys) && IsTrace(s, calls, clock)
    requires from < till && Tally(s, from, till, Find(cache, s.key), clock, n)
    ensures n + Admitted(cache, calls, s.key, from, till) <= Most(s, till - from)
    decreases |calls|, till - from
  {
    UnbrokenCounts(s, till - from, if till - from > Length(s) then till - from - Length(s) else 0);
    if calls != [] {
      var c, found := calls[0], Find(cache, s.key);
      var rest, later := Answered(cache, c).0, Later(c);
      KeysAreIndependent(cache, c, s.keys, s.key);
      if c.looked >= till {
        NothingLater(s, rest, calls[1..], later, from, till);
      } else if c.key != s.key {
        TallyPasses(s, from, till, found, clock, n, later);
        TallyBounds(s, from, till, rest, calls[1..], later, n);
      } else if c.Look? {
        LookKeepsTally(s, from, till, found, clock, n, c);
        TallyBounds(s, from, till, rest, calls[1..], later, n);
      } else if n > 0 && Live(found, c.looked).None? {
        RestartBounds(s, from, till, cache, calls, clock, n);
      } else {
        AskKeepsTally(s, from, till, found, clock, n, c);
        TallyBounds(s, from, till, rest, calls[1..], later, n + More(from, till, c, Answered(cache, c).1));
      }
    }
  }

  lemma {:induction false} AskKeepsTally(
    s: Setting, from: int, till: int, found: Option<Slot>, clock: int, n: nat, c: Call)
    requires Limited(s) && from < till && Tally(s, from, till, found, clock, n)
    requires c.Ask? && c.key == s.key && InTurn(s, c, clock) && c.looked < till
    requires n > 0 ==> Live(found, c.looked).Some?
    ensures Tally(s, from, till, Track(found, c).0, c.kept, n + More(from, till, c, Track(found, c).1))
  {
    if n == 0 {
      FirstKeepsTally(s, from, till, found, clock, c);
    } else if c.asked - found.value.window.started >= Length(s) {
      OpenKeepsTally(s, from, till, found.value, clock, n, c);
    } else {
      JoinKeepsTally(s, from, till, found.value, clock, n, c);
    }
  }

  /** After a pause the count starts again, in the interval that is left. */
  lemma {:induction false} RestartBounds(
    s: Setting, from: int, till: int, cache: Cache, calls: seq<Call>, clock: int, n: nat)
    requires Limited(s) && Roomy(cache, s.keys) && IsTrace(s, calls, clock) && calls != []
    requires from < till && Tally(s, from, till, Find(cache, s.key), clock, n) && n > 0
    requires calls[0].key == s.key && calls[0].looked < till && Live(Find(cache, s.key), calls[0].looked).None?
    ensures n + Admitted(cache, calls, s.key, from, till) <= Most(s, till - from)
    decreases |calls|, till - from, 0
  {
    var looked, t := calls[0].looked, till - from;
    PauseBounds(s, from, till, Find(cache, s.key), clock, n, looked);
    BeginLater(s, cache, calls, clock, from, looked, till);
    TallyBounds(s, looked, till, cache, calls, clock, 0);
    RestartCounts(s, t, looked - from, n, Admitted(cache, calls, s.key, looked, till));
  }

  lemma {:induction false} RestartCounts(s: Setting, t: nat, gone: nat, n: nat, m: nat)
    requires Limited(s) && Length(s) <= gone < t
    requires n <= Runs(s, gone - Length(s) + s.overlap) && m <= Most(s, t - gone)
    ensures n + m <= Most(s, t)
  {
    PauseCounts(s, t, t - Length(s), gone - Length(s) + 1);
  }

  /** Requests for the watched key admitted in t units of time. */
  function AdmittedIn(s: Setting, calls: seq<Call>, from: int, t: nat): nat {
    Admitted([], calls, s.key, from, from + t)
  }

  /** Over every trace of calls on any keys that fit, however they overlap and however
      long they wait, no interval admits more. */
  lemma {:induction false} AnyIntervalIsBounded(s: Setting, calls: seq<Call>, clock: int, from: int, t: nat)
    requires Limited(s) && IsTrace(s, calls, clock) && t >= 1
    ensures AdmittedIn(s, calls, from, t) <= Most(s, t)
  {
    TallyBounds(s, from, from + t, [], calls, clock, 0);
  }

  // ----- Some trace admits that many ----------------------------------------

  /** The slot after some calls on the watched key, and the clock. */
  function After(found: Option<Slot>, calls: seq<Call>): Option<Slot>
    decreases |calls|
  {
    if calls == [] then found else After(Track(found, calls[0]).0, calls[1..])
  }

  function End(calls: seq<Call>, clock: int): int {
    if calls == [] then clock else End(calls[1..], Later(calls[0]))
  }

  predicate OnlyKey(calls: seq<Call>, key: string) {
    forall c | c in calls :: c.key == key
  }

  lemma {:induction false} Joined(
    s: Setting, found: Option<Slot>, a: seq<Call>, b: seq<Call>, clock: int, from: int, till: int)
    ensures AdmittedAlone(found, a + b, from, till)
            == AdmittedAlone(found, a, from, till) + AdmittedAlone(After(found, a), b, from, till)
    ensures After(found, a + b) == After(After(found, a), b)
    ensures IsTrace(s, a, clock) && IsTrace(s, b, End(a, clock)) ==> IsTrace(s, a + b, clock)
    ensures End(a + b, clock) == End(b, End(a, clock))
    decreases |a|
  {
    if a == [] {
      assert a + b == b;
    } else {
      assert (a + b)[1..] == a[1..] + b;
      Joined(s, Track(found, a[0]).0, a[1..], b, Later(a[0]), from, till);
    }
  }

  /** n requests that read the clock at one time and get the lock at another. */
  function Crowd(s: Setting, asked: int, looked: int, n: nat): seq<Call> {
    if n == 0 then [] else [Ask(s.key, s.max, s.duration, asked, looked, looked)] + Crowd(s, asked, looked, n - 1)
  }

  lemma {:induction false} CrowdIsTrace(s: Setting, asked: int, looked: int, n: nat, clock: int)
    requires s.key in s.keys && asked <= looked && clock <= looked && clock <= asked + s.overlap
    requires n > 1 ==> looked <= asked + s.overlap
    ensures IsTrace(s, Crowd(s, asked, looked, n), clock) && OnlyKey(Crowd(s, asked, looked, n), s.key)
    ensures n > 0 ==> End(Crowd(s, asked, looked, n), clock) == looked
    decreases n
  {
    if n > 0 {
      assert Crowd(s, asked, looked, n)[1..] == Crowd(s, asked, looked, n - 1);
      if n > 1 {
        CrowdIsTrace(s, asked, looked, n - 1, looked);
      }
    }
  }

  /** A crowd that finds its window open and not full is admitted. */
  lemma {:induction false} CrowdJoins(s: Setting, slot: Slot, asked: int, looked: int, n: nat, from: int, till: int)
    requires Limited(s) && slot.window.count >= 1 && slot.window.count + n <= s.max
    requires looked < slot.expires && asked - slot.window.started < Length(s) && from <= looked < till
    ensures AdmittedAlone(Some(slot), Crowd(s, asked, looked, n), from, till) == n
    ensures n > 0 ==> After(Some(slot), Crowd(s, asked, looked, n))
                      == Some(Slot(s.key, Window(slot.window.count + n, slot.window.started), looked + Length(s)))
    decreases n
  {
    if n > 0 {
      var calls := Crowd(s, asked, looked, n);
      assert calls[1..] == Crowd(s, asked, looked, n - 1);
      var next := Track(Some(slot), calls[0]).0.value;
      CrowdJoins(s, next, asked, looked, n - 1, from, till);
    }
  }

  /** A crowd that finds no window, or one that is over, opens its own. */
  lemma {:induction false} CrowdOpens(
    s: Setting, found: Option<Slot>, asked: int, looked: int, n: nat, from: int, till: int)
    requires Limited(s) && 1 <= n <= s.max && from <= looked < till && asked <= looked
    requires Live(found, looked).None? || asked - found.value.window.started >= Length(s)
    ensures AdmittedAlone(found, Crowd(s, asked, looked, n), from, till) == n
    ensures After(found, Crowd(s, asked, looked, n)) == Some(Slot(s.key, Window(n, asked), looked + Length(s)))
  {
    var calls := Crowd(s, asked, looked, n);
    assert calls[1..] == Crowd(s, asked, looked, n - 1);
    CrowdJoins(s, Slot(s.key, Window(1, asked), looked + Length(s)), asked, looked, n - 1, from, till);
  }

  // ----- One unbroken interval ----------------------------------------------

  /** When the last window of such a trace opens, and when its crowd gets the lock. */
  function Opens(s: Setting, from: int, x: nat): int {
    from - s.overlap + x
  }

  function Locks(s: Setting, from: int, x: nat): int {
    Max(from, Opens(s, from, x))
  }

  /** A call delayed since before the interval opens an old window, the calls that may
      still come with its time fill it, and then one crowd after the other fills a
      window of its own as soon as the one before is over. */
  function Crowded(s: Setting, from: int, x: nat): seq<Call>
    requires Limited(s)
    decreases x
  {
    if x >= Length(s) then
      Crowded(s, from, x - Length(s)) + Crowd(s, Opens(s, from, x), Locks(s, from, x), s.max)
    else
      OldWindow(s, from, x) + Crowd(s, Opens(s, from, x), Locks(s, from, x), s.max)
  }

  function OldWindow(s: Setting, from: int, x: nat): seq<Call>
    requires Limited(s)
  {
    Crowd(s, Opens(s, from, x) - Length(s), from, 1)
    + Crowd(s, from - s.overlap, from, if x > 0 then s.max - 1 else 0)
  }

  /** Where a trace may go on: the slot it found is gone, and a window has passed. */
  ghost predicate Rested(s: Setting, found: Option<Slot>, clock: int, from: int) {
    clock <= from - Length(s) && (found.Some? ==> found.value.expires <= from)
  }

  /** Calls on the watched key that are a trace between two times and admit n requests. */
  ghost predicate Fills(
    s: Setting, found: Option<Slot>, calls: seq<Call>, clock: int, end: int, from: int, till: int, n: nat)
  {
    && IsTrace(s, calls, clock) && OnlyKey(calls, s.key) && End(calls, clock) == end
    && AdmittedAlone(found, calls, from, till) == n
  }

  lemma {:induction false} FillsBoth(
    s: Setting, found: Option<Slot>, a: seq<Call>, b: seq<Call>, clock: int, mid: int, end: int, from: int, till: int,
    n: nat, m: nat)
    requires Fills(s, found, a, clock, mid, from, till, n) && Fills(s, After(found, a), b, mid, end, from, till, m)
    ensures Fills(s, found, a + b, clock, end, from, till, n + m) && After(found, a + b) == After(After(found, a), b)
  {
    Joined(s, found, a, b, clock, from, till);
  }

  lemma {:induction false} LateCallOpens(
    s: Setting, found: Option<Slot>, clock: int, from: int, early: int, lo: int, till: int)
    requires Limited(s) && Rested(s, found, clock, from) && lo <= from < till && clock - s.overlap <= early <= from
    ensures Fills(s, found, Crowd(s, early, from, 1), clock, from, lo, till, 1)
    ensures After(found, Crowd(s, early, from, 1)) == Some(Slot(s.key, Window(1, early), from + Length(s)))
  {
    CrowdIsTrace(s, early, from, 1, clock);
    CrowdOpens(s, found, early, from, 1, lo, till);
  }

  lemma {:induction false} OthersJoin(s: Setting, slot: Slot, from: int, n: nat, lo: int, till: int)
    requires Limited(s) && lo <= from < till && slot.window.count == 1 && n < s.max && from < slot.expires
    requires n > 0 ==> from - s.overlap - slot.window.started < Length(s)
    ensures Fills(s, Some(slot), Crowd(s, from - s.overlap, from, n), from, from, lo, till, n)
    ensures var after := After(Some(slot), Crowd(s, from - s.overlap, from, n));
            after.Some? && after.value.window.started == slot.window.started
  {
    CrowdIsTrace(s, from - s.overlap, from, n, from);
    if n > 0 {
      CrowdJoins(s, slot, from - s.overlap, from, n, lo, till);
    }
  }

  lemma {:induction false} OldWindowFills(
    s: Setting, found: Option<Slot>, clock: int, from: int, x: nat, lo: int, till: int)
    requires Limited(s) && x < Length(s) && Rested(s, found, clock, from) && lo <= from < till
    ensures Fills(s, found, OldWindow(s, from, x), clock, from, lo, till, if x > 0 then s.max else 1)
    ensures var slot := After(found, OldWindow(s, from, x));
            slot.Some? && slot.value.window.started == Opens(s, from, x) - Length(s)
  {
    var early, more := Opens(s, from, x) - Length(s), if x > 0 then s.max - 1 else 0;
    LateCallOpens(s, found, clock, from, early, lo, till);
    OthersJoin(s, Slot(s.key, Window(1, early), from + Length(s)), from, more, lo, till);
    FillsBoth(s, found, Crowd(s, early, from, 1), Crowd(s, from - s.overlap, from, more), clock, from, from, lo, till,
              1, more);
  }

  /** One crowd more, in a window of its own. */
  lemma {:induction false} CrowdFills(
    s: Setting, found: Option<Slot>, calls: seq<Call>, clock: int, end: int, from: int, x: nat, lo: int, till: int,
    n: nat)
    requires Limited(s) && Fills(s, found, calls, clock, end, lo, till, n)
    requires lo <= from <= end <= Locks(s, from, x) < till && end <= Opens(s, from, x) + s.overlap
    requires var slot := After(found, calls);
             slot.Some? && slot.value.window.started == Opens(s, from, x) - Length(s)
    ensures var crowd := Crowd(s, Opens(s, from, x), Locks(s, from, x), s.max);
            && Fills(s, found, calls + crowd, clock, Locks(s, from, x), lo, till, n + s.max)
            && After(found, calls + crowd)
               == Some(Slot(s.key, Window(s.max, Opens(s, from, x)), Locks(s, from, x) + Length(s)))
  {
    var crowd := Crowd(s, Opens(s, from, x), Locks(s, from, x), s.max);
    CrowdIsTrace(s, Opens(s, from, x), Locks(s, from, x), s.max, end);
    CrowdOpens(s, After(found, calls), Opens(s, from, x), Locks(s, from, x), s.max, lo, till);
    FillsBoth(s, found, calls, crowd, clock, end, Locks(s, from, x), lo, till, n, s.max);
  }

  lemma {:induction false} CrowdedFills(
    s: Setting, found: Option<Slot>, clock: int, from: int, x: nat, lo: int, till: int)
    requires Limited(s) && Rested(s, found, clock, from) && lo <= from && Locks(s, from, x) < till
    ensures Fills(s, found, Crowded(s, from, x), clock, Locks(s, from, x), lo, till, Runs(s, x))
    ensures After(found, Crowded(s, from, x))
            == Some(Slot(s.key, Window(s.max, Opens(s, from, x)), Locks(s, from, x) + Length(s)))
    decreases x
  {
    if x >= Length(s) {
      var y := x - Length(s);
      CrowdedFills(s, found, clock, from, y, lo, till);
      CrowdFills(s, found, Crowded(s, from, y), clock, Locks(s, from, y), from, x, lo, till, Runs(s, y));
    } else {
      OldWindowFills(s, found, clock, from, x, lo, till);
      CrowdFills(s, found, OldWindow(s, from, x), clock, from, from, x, lo, till, if x > 0 then s.max else 1);
    }
  }

  // ----- Pauses -------------------------------------------------------------

  /** Either there is no pause to gain from, or one after the first t1 units. */
  lemma {:induction false} BestPause(s: Setting, t: nat, upto: nat) returns (t1: nat)
    requires Limited(s) && t >= 1 && (upto == 0 || upto + Length(s) <= t)
    ensures t1 == 0 ==> MostPausing(s, t, upto) == Unbroken(s, t)
    ensures t1 > 0 ==> t1 + Length(s) <= t
                       && MostPausing(s, t, upto) == Unbroken(s, t1) + Most(s, t - t1 + 1 - Length(s))
    decreases upto
  {
    if upto == 0 {
      t1 := 0;
    } else if MostPausing(s, t, upto) == MostPausing(s, t, upto - 1) {
      t1 := BestPause(s, t, upto - 1);
    } else {
      t1 := upto;
    }
  }

  lemma {:induction false} MostIsFilled(
    s: Setting, found: Option<Slot>, clock: int, from: int, t: nat, lo: int) returns (calls: seq<Call>, end: int)
    requires Limited(s) && t >= 1 && Rested(s, found, clock, from) && lo <= from
    ensures Fills(s, found, calls, clock, end, lo, from + t, Most(s, t))
    decreases t
  {
    var t1 := BestPause(s, t, if t > Length(s) then t - Length(s) else 0);
    if t1 == 0 {
      calls, end := UnbrokenIsFilled(s, found, clock, from, t, lo, from + t);
    } else {
      var first, mid := UnbrokenIsFilled(s, found, clock, from, t1, lo, from + t);
      var rest;
      rest, end := MostIsFilled(s, After(found, first), mid, mid + Length(s), t - t1 + 1 - Length(s), lo);
      FillsBoth(s, found, first, rest, clock, mid, end, lo, from + t,
                Unbroken(s, t1), Most(s, t - t1 + 1 - Length(s)));
      calls := first + rest;
    }
  }

  lemma {:induction false} UnbrokenIsFilled(
    s: Setting, found: Option<Slot>, clock: int, from: int, t: nat, lo: int, till: int)
    returns (calls: seq<Call>, end: int)
    requires Limited(s) && t >= 1 && Rested(s, found, clock, from) && lo <= from && from + t <= till
    ensures end == from + t - 1 && Fills(s, found, calls, clock, end, lo, till, Unbroken(s, t))
    ensures Rested(s, After(found, calls), end, end + Length(s))
  {
    calls, end := Crowded(s, from, t - 1 + s.overlap), from + t - 1;
    CrowdedFills(s, found, clock, from, t - 1 + s.overlap, lo, till);
  }

  /** For every limit, duration, overlap and length some trace reaches the bound. */
  lemma {:induction false} BoundIsReached(s: Setting, t: nat) returns (calls: seq<Call>, clock: int)
    requires Limited(s) && t >= 1
    ensures IsTrace(s, calls, clock) && AdmittedIn(s, calls, 0, t) == Most(s, t)
  {
    clock := -Length(s);
    var end;
    calls, end := MostIsFilled(s, None, clock, 0, t, 0);
    FilledIsAdmitted(s, calls, clock, end, t, Most(s, t));
  }

  /** A key in a trace of its own is limited as in the cache. */
  lemma {:induction false} FilledIsAdmitted(s: Setting, calls: seq<Call>, clock: int, end: int, t: nat, n: nat)
    requires Limited(s) && Fills(s, None, calls, clock, end, 0, t, n)
    ensures IsTrace(s, calls, clock) && AdmittedIn(s, calls, 0, t) == n
  {
    OneKeyOnly(s, calls, clock);
    TracesAreIndependent([], calls, s.keys, s.key, 0, t);
  }

  lemma {:induction false} OneKeyOnly(s: Setting, calls: seq<Call>, clock: int)
    requires IsTrace(s, calls, clock) && OnlyKey(calls, s.key)
    ensures AllWithin(calls, s.keys) && CallsFor(calls, s.key) == calls
    decreases |calls|
  {
    if calls != [] {
      OneKeyOnly(s, calls[1..], Later(calls[0]));
    }
  }

  // ----- A whole window -----------------------------------------------------

  ghost predicate AlwaysWithin(s: Setting, t: nat, most: nat) {
    forall calls: seq<Call>, clock: int, from: int ::
      IsTrace(s, calls, clock) ==> AdmittedIn(s, calls, from, t) <= most
  }

  /** So the bound is exact: a number bounds every interval of this length if and only
      if it is at least that. */
  lemma {:induction false} MostIsExact(s: Setting, t: nat, most: nat)
    requires Limited(s) && t >= 1
    ensures AlwaysWithin(s, t, most) <==> Most(s, t) <= most
  {
    if Most(s, t) <= most {
      forall calls, clock, from | IsTrace(s, calls, clock) ensures AdmittedIn(s, calls, from, t) <= most {
        AnyIntervalIsBounded(s, calls, clock, from, t);
      }
    } else {
      var calls, clock := BoundIsReached(s, t);
      assert AdmittedIn(s, calls, 0, t) > most;
    }
  }

  lemma {:induction false} RunsIs(s: Setting, x: nat)
    requires Limited(s)
    ensures Runs(s, x) == s.max * (x / Length(s) + 1) + if x % Length(s) > 0 then s.max else 1
    decreases x
  {
    if x >= Length(s) {
      RunsIs(s, x - Length(s));
      DivideStep(x, Length(s));
      Distribute(s.max, (x - Length(s)) / Length(s) + 1);
    } else {
      QuotientIsUnique(x, Length(s), 0, x);
    }
  }

  lemma {:induction false} Distribute(a: int, b: int)
    ensures a * (b + 1) == a + a * b
  {
  }

  /** In an interval no longer than a window: the limit once for every window that can
      open in it, and again for the one it found, but only once, for the call that
      opened that window late, when there is no time left to join it. */
  lemma {:induction false} MostInAWindow(s: Setting, t: nat)
    requires Limited(s) && 1 <= t <= Length(s)
    ensures var x := t - 1 + s.overlap;
            Most(s, t) == s.max * (x / Length(s) + 1) + if x % Length(s) > 0 then s.max else 1
  {
    RunsIs(s, t - 1 + s.overlap);
  }

  /** The trace that exceeds twice the limit in a whole window: a late call opens an old
      window, and two crowds fill the next two. With an overlap of two it admits three
      times the limit. */
  lemma {:induction false} OverlapExceeds(s: Setting)
    requires Limited(s) && s.overlap >= 1
    ensures var calls := Crowded(s, 0, Length(s) - 1 + s.overlap);
            && IsTrace(s, calls, -Length(s))
            && AdmittedIn(s, calls, 0, Length(s)) >= 2 * s.max + if s.overlap >= 2 then s.max else 1
  {
    var x := Length(s) - 1 + s.overlap;
    CrowdedFills(s, None, -Length(s), 0, x, 0, Length(s));
    FilledIsAdmitted(s, Crowded(s, 0, x), -Length(s), Locks(s, 0, x), Length(s), Runs(s, x));
    OverlapRuns(s);
  }

  lemma {:induction false} OverlapRuns(s: Setting)
    requires Limited(s) && s.overlap >= 1
    ensures Runs(s, Length(s) - 1 + s.overlap) >= 2 * s.max + if s.overlap >= 2 then s.max else 1
  {
    RunsGrow(s, Length(s), Length(s) - 1 + s.overlap);
    if s.overlap >= 2 {
      RunsGrow(s, Length(s) + 1, Length(s) - 1 + s.overlap);
    }
  }

  /** Beyond a window a pause can gain something even without overlap: a call that read
      the clock before it opens an old window after it. */
  lemma {:induction false} PauseGains(s: Setting)
    requires Limited(s) && s.overlap == 0
    ensures Unbroken(s, Length(s) + 2) == 3 * s.max < Most(s, Length(s) + 2)
  {
    PauseCounts(s, Length(s) + 2, 2, 2);
    assert Unbroken(s, 2) == 2 * s.max && Most(s, 1) == s.max + 1;
  }

  /** A whole window admits at most twice the limit exactly when no call may read the
      clock before the previous holder of the lock is done. */
  lemma {:induction false} TwiceTheLimitIff(s: Setting)
    requires Limited(s)
    ensures AlwaysWithin(s, Length(s), 2 * s.max) <==> s.overlap == 0
  {
    MostIsExact(s, Length(s), 2 * s.max);
    if s.overlap > 0 {
      OverlapRuns(s);
    }
  }
}
