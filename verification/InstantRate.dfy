/** How many requests the limiter admits in the length of a window when calls take no
    time: each reads the clock as it gets the lock. */
module InstantRate {
  import opened Basics
  import opened RateLimit

  // ----- No window-long interval admits more --------------------------------

  /** No time passes inside a call. */
  ghost predicate Instant(c: Call) {
    c.Ask? ==> c.asked == c.looked == c.kept
  }

  ghost predicate AllInstant(calls: seq<Call>) {
    calls != [] ==> Instant(calls[0]) && AllInstant(calls[1..])
  }

  /** An interval watched, no longer than a window. */
  datatype Watch = Watch(from: int, till: int)

  ghost predicate Watches(s: Setting, v: Watch) {
    v.till - v.from <= Length(s)
  }

  ghost predicate Over(s: Setting, v: Watch, clock: int, n: nat) {
    n <= 2 * s.max - 1 && v.till <= clock
  }

  ghost predicate InFirst(s: Setting, v: Watch, w: Window, n: nat) {
    n <= w.count && (0 < n == w.count ==> v.from <= w.started)
  }

  ghost predicate InSecond(s: Setting, v: Watch, w: Window, n: nat) {
    n <= s.max - 1 + w.count && v.till <= w.started + Length(s)
  }

  /** n requests have been admitted inside the interval so far: all of them in the
      current window, or in it and the one before, or the interval is over. */
  ghost predicate Tally(s: Setting, v: Watch, found: Option<Slot>, clock: int, n: nat) {
    && (n > 0 ==> v.from <= clock)
    && (found.Some? ==> Keeps(s, found.value, clock))
    && (|| Over(s, v, clock, n)
        || (found.None? && n <= s.max - 1)
        || (found.Some? && (InFirst(s, v, found.value.window, n) || InSecond(s, v, found.value.window, n))))
  }

  function More(v: Watch, c: Call, allowed: bool): nat {
    if c.Ask? && allowed && v.from <= c.looked < v.till then 1 else 0
  }

  lemma {:induction false} TallyPasses(s: Setting, v: Watch, found: Option<Slot>, clock: int, n: nat, later: int)
    requires Limited(s) && Tally(s, v, found, clock, n) && clock <= later
    ensures Tally(s, v, found, later, n)
  {
  }

  lemma {:induction false} LookKeepsTally(s: Setting, v: Watch, found: Option<Slot>, clock: int, n: nat, c: Call)
    requires Limited(s) && Watches(s, v) && Tally(s, v, found, clock, n)
    requires c.Look? && c.key == s.key && InTurn(s, c, clock)
    ensures Tally(s, v, Track(found, c).0, c.looked, n)
  {
  }

  lemma {:induction false} OpenKeepsTally(s: Setting, v: Watch, found: Option<Slot>, clock: int, n: nat, c: Call)
    requires Limited(s) && Watches(s, v) && Tally(s, v, found, clock, n)
    requires c.Ask? && c.key == s.key && InTurn(s, c, clock) && Instant(c)
    requires Live(found, c.looked).None? || c.asked - found.value.window.started >= Length(s)
    ensures Track(found, c).1 && Tally(s, v, Track(found, c).0, c.kept, n + More(v, c, true))
  {
    var after := Track(found, c).0.value;
    assert after.window == Window(1, c.asked);
    assert Keeps(s, after, c.kept);
    if c.looked >= v.till {
      assert Over(s, v, c.kept, n) || InFirst(s, v, after.window, n) || InSecond(s, v, after.window, n);
    } else if n == 0 {
      assert InFirst(s, v, after.window, n + More(v, c, true));
    } else {
      assert InSecond(s, v, after.window, n + More(v, c, true));
    }
  }

  lemma {:induction false} CountKeepsTally(s: Setting, v: Watch, slot: Slot, clock: int, n: nat, c: Call)
    requires Limited(s) && Watches(s, v) && Tally(s, v, Some(slot), clock, n)
    requires c.Ask? && c.key == s.key && InTurn(s, c, clock)
    requires c.looked < slot.expires && c.asked - slot.window.started < Length(s)
    ensures Tally(s, v, Track(Some(slot), c).0, c.kept, n + More(v, c, Track(Some(slot), c).1))
  {
    var after := Track(Some(slot), c).0.value;
    assert after.window.started == slot.window.started;
    assert Keeps(s, after, c.kept);
  }

  lemma {:induction false} CallKeepsTally(s: Setting, v: Watch, found: Option<Slot>, clock: int, n: nat, c: Call)
    requires Limited(s) && Watches(s, v) && Tally(s, v, found, clock, n)
    requires c.key == s.key && InTurn(s, c, clock) && Instant(c)
    ensures Tally(s, v, Track(found, c).0, Later(c), n + More(v, c, Track(found, c).1))
  {
    if c.Look? {
      LookKeepsTally(s, v, found, clock, n, c);
    } else if Live(found, c.looked).None? || c.asked - found.value.window.started >= Length(s) {
      OpenKeepsTally(s, v, found, clock, n, c);
    } else {
      CountKeepsTally(s, v, found.value, clock, n, c);
    }
  }

  lemma {:induction false} TallyBounds(s: Setting, v: Watch, cache: Cache, calls: seq<Call>, clock: int, n: nat)
    requires Limited(s) && Watches(s, v) && Roomy(cache, s.keys) && IsTrace(s, calls, clock)
    requires Tally(s, v, Find(cache, s.key), clock, n) && AllInstant(calls)
    ensures n + Admitted(cache, calls, s.key, v.from, v.till) <= 2 * s.max - 1
    decreases |calls|
  {
    if calls != [] {
      var c := calls[0];
      KeysAreIndependent(cache, c, s.keys, s.key);
      if c.key == s.key {
        CallKeepsTally(s, v, Find(cache, s.key), clock, n, c);
        TallyBounds(s, v, Answered(cache, c).0, calls[1..], Later(c), n + More(v, c, Answered(cache, c).1));
      } else {
        TallyPasses(s, v, Find(cache, s.key), clock, n, Later(c));
        TallyBounds(s, v, Answered(cache, c).0, calls[1..], Later(c), n);
      }
    }
  }

  /** A whole window admits at most one less than twice the limit. */
  lemma {:induction false} InstantIntervalIsBounded(s: Setting, calls: seq<Call>, clock: int, from: int)
    requires Limited(s) && IsTrace(s, calls, clock) && AllInstant(calls)
    ensures Admitted([], calls, s.key, from, from + Length(s)) <= 2 * s.max - 1
  {
    TallyBounds(s, Watch(from, from + Length(s)), [], calls, clock, 0);
  }

  // ----- The bound is reached -----------------------------------------------

  function At(s: Setting, now: int): Call {
    Ask(s.key, s.max, s.duration, now, now, now)
  }

  function Burst(s: Setting, now: int, n: nat): seq<Call> {
    if n == 0 then [] else [At(s, now)] + Burst(s, now, n - 1)
  }

  lemma {:induction false} BurstAdmits(s: Setting, slot: Slot, now: int, n: nat, rest: seq<Call>, from: int, till: int)
    requires Limited(s) && slot.key == s.key && 1 <= slot.window.count && slot.window.count + n <= s.max
    requires now < slot.expires && now - slot.window.started < Length(s) && from <= now < till
    ensures AdmittedAlone(Some(slot), Burst(s, now, n) + rest, from, till)
            == n + AdmittedAlone(Some(AfterBurst(s, slot, now, n)), rest, from, till)
    decreases n
  {
    if n == 0 {
      assert Burst(s, now, n) + rest == rest;
    } else {
      var others := Burst(s, now, n - 1) + rest;
      assert Burst(s, now, n) + rest == [At(s, now)] + others;
      AloneStep(Some(slot), At(s, now), others, from, till);
      BurstAdmits(s, AfterBurst(s, slot, now, 1), now, n - 1, rest, from, till);
    }
  }

  function AfterBurst(s: Setting, slot: Slot, now: int, n: nat): Slot {
    if n == 0 then slot
    else Slot(s.key, Window(slot.window.count + n, slot.window.started), now + Length(s))
  }

  lemma {:induction false} BurstKey(s: Setting, now: int, n: nat)
    ensures forall c :: c in Burst(s, now, n) ==> c.key == s.key
  {
    if n > 0 {
      BurstKey(s, now, n - 1);
    }
  }

  lemma {:induction false} BurstIsTrace(s: Setting, now: int, n: nat, rest: seq<Call>, clock: int)
    requires s.key in s.keys && clock <= now && IsTrace(s, rest, now) && AllInstant(rest)
    ensures IsTrace(s, Burst(s, now, n) + rest, clock) && AllInstant(Burst(s, now, n) + rest)
    decreases n
  {
    if n == 0 {
      assert Burst(s, now, n) + rest == rest;
      if rest != [] {
        assert InTurn(s, rest[0], clock);
      }
    } else {
      var calls := Burst(s, now, n) + rest;
      assert calls[0] == At(s, now) && calls[1..] == Burst(s, now, n - 1) + rest;
      BurstIsTrace(s, now, n - 1, rest, now);
    }
  }

  /** One request at 0, the rest of the limit just before the window ends and the
      whole limit again as it ends. */
  function Worst(s: Setting): seq<Call>
    requires Limited(s)
  {
    Burst(s, 0, 1) + (Burst(s, Length(s) - 1, s.max - 1) + (Burst(s, Length(s), s.max) + []))
  }

  /** For every limit and duration some instant trace reaches the bound. */
  lemma {:induction false} InstantBoundIsReached(s: Setting)
    requires Limited(s)
    ensures IsTrace(s, Worst(s), 0) && AllInstant(Worst(s))
    ensures Admitted([], Worst(s), s.key, Length(s) - 1, 2 * Length(s) - 1) == 2 * s.max - 1
  {
    var end := Length(s);
    var third := Burst(s, end, s.max) + [];
    var second := Burst(s, end - 1, s.max - 1) + third;
    BurstKey(s, end, s.max);
    BurstKey(s, end - 1, s.max - 1);
    BurstKey(s, 0, 1);
    BurstIsTrace(s, end, s.max, [], end - 1);
    BurstIsTrace(s, end - 1, s.max - 1, third, 0);
    BurstIsTrace(s, 0, 1, second, 0);
    WorstAdmits(s, third, second);
    OneKeyAdmits(s, Worst(s), end - 1, 2 * end - 1);
  }

  lemma {:induction false} OneKeyAdmits(s: Setting, calls: seq<Call>, from: int, till: int)
    requires Limited(s) && IsTrace(s, calls, 0) && forall c :: c in calls ==> c.key == s.key
    ensures Admitted([], calls, s.key, from, till) == AdmittedAlone(None, calls, from, till)
  {
    OneKeyOnly(s, calls, 0);
    TracesAreIndependent([], calls, s.keys, s.key, from, till);
  }

  lemma {:induction false} OneKeyOnly(s: Setting, calls: seq<Call>, clock: int)
    requires IsTrace(s, calls, clock) && forall c :: c in calls ==> c.key == s.key
    ensures AllWithin(calls, s.keys) && CallsFor(calls, s.key) == calls
    decreases |calls|
  {
    if calls != [] {
      OneKeyOnly(s, calls[1..], Later(calls[0]));
    }
  }

  lemma {:induction false} WorstAdmits(s: Setting, third: seq<Call>, second: seq<Call>)
    requires Limited(s) && third == Burst(s, Length(s), s.max) + []
    requires second == Burst(s, Length(s) - 1, s.max - 1) + third
    ensures AdmittedAlone(None, Burst(s, 0, 1) + second, Length(s) - 1, 2 * Length(s) - 1) == 2 * s.max - 1
  {
    var end := Length(s);
    assert Burst(s, 0, 1) + second == [At(s, 0)] + second;
    AloneStep(None, At(s, 0), second, end - 1, 2 * end - 1);
    var first := Slot(s.key, Window(1, 0), end);
    BurstAdmits(s, first, end - 1, s.max - 1, third, end - 1, 2 * end - 1);
    SecondWindow(s, AfterBurst(s, first, end - 1, s.max - 1), third);
  }

  lemma {:induction false} SecondWindow(s: Setting, full: Slot, third: seq<Call>)
    requires Limited(s) && full.key == s.key && full.window == Window(s.max, 0)
    requires third == Burst(s, Length(s), s.max) + []
    ensures AdmittedAlone(Some(full), third, Length(s) - 1, 2 * Length(s) - 1) == s.max
  {
    var end := Length(s);
    var others := Burst(s, end, s.max - 1) + [];
    assert third == [At(s, end)] + others;
    AloneStep(Some(full), At(s, end), others, end - 1, 2 * end - 1);
    BurstAdmits(s, Slot(s.key, Window(1, end), end + end), end, s.max - 1, [], end - 1, 2 * end - 1);
  }
}
