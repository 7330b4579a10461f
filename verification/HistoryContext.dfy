/** Fitting a stored conversation into a rune budget: recent turns verbatim,
    older ones as bounded excerpts. A string is a sequence of runes. */
module HistoryContext {
  import opened Basics

  datatype Role = User | Assistant
  datatype Entry = Entry(role: Role, content: string)

  const MARKER := "[Earlier history excerpt; some content or turns omitted]\n"
  const MIN_EXCERPT := 128
  const MAX_EXCERPT := 256

  function Runes(ms: seq<Entry>): nat {
    if ms == [] then 0 else |ms[0].content| + Runes(ms[1..])
  }

  lemma {:induction false} RunesAppend(a: seq<Entry>, b: seq<Entry>)
    ensures Runes(a + b) == Runes(a) + Runes(b)
    decreases |a|
  {
    if a == [] {
      assert a + b == b;
    } else {
      assert (a + b)[1..] == a[1..] + b;
      RunesAppend(a[1..], b);
    }
  }

  /** The pair before a suffix. */
  lemma {:induction false} RunesPair(ms: seq<Entry>, start: nat)
    requires 2 <= start <= |ms|
    ensures Runes(ms[start - 2..]) == |ms[start - 2].content| + |ms[start - 1].content| + Runes(ms[start..])
  {
    assert ms[start - 2..][1..] == ms[start - 1..] && ms[start - 1..][1..] == ms[start..];
  }

  lemma {:induction false} SuffixRunes(ms: seq<Entry>, i: nat, j: nat)
    requires i <= j <= |ms|
    ensures Runes(ms[j..]) <= Runes(ms[i..])
    decreases j - i
  {
    if i < j {
      SuffixRunes(ms, i + 1, j);
      assert ms[i..][1..] == ms[i + 1..];
    }
  }

  // ---------- recent turns ----------

  /** A suffix of whole pairs that fits. */
  predicate Fits(ms: seq<Entry>, budget: int, start: nat) {
    start <= |ms| && (|ms| - start) % 2 == 0 && Runes(ms[start..]) <= budget
  }

  /** The start of the longest fitting suffix of whole pairs. */
  ghost predicate LongestFit(ms: seq<Entry>, budget: int, start: nat) {
    Fits(ms, budget, start) && forall s: nat | Fits(ms, budget, s) :: start <= s
  }

  /** Steps back pair by pair while the next pair still fits. */
  function RecentStart(ms: seq<Entry>, budget: int, from: nat): (start: nat)
    requires from <= |ms|
    ensures start <= from
  {
    if from >= 2 && Runes(ms[from - 2..]) <= budget then RecentStart(ms, budget, from - 2) else from
  }

  function Recent(ms: seq<Entry>, budget: int): seq<Entry> {
    if budget <= 0 || |ms| < 2 then [] else ms[RecentStart(ms, budget, |ms|)..]
  }

  method TrimToBudget(ms: seq<Entry>, budget: int) returns (r: seq<Entry>)
    ensures r == Recent(ms, budget)
  {
    if budget <= 0 || |ms| < 2 {
      return [];
    }
    var start, used := |ms|, 0;
    while start >= 2
      invariant 0 <= start <= |ms| && used == Runes(ms[start..])
      invariant RecentStart(ms, budget, start) == RecentStart(ms, budget, |ms|)
      decreases start
    {
      RunesPair(ms, start);
      var pair := |ms[start - 2].content| + |ms[start - 1].content|;
      if used + pair > budget {
        break;
      }
      used := used + pair;
      start := start - 2;
    }
    return ms[start..];
  }

  lemma {:induction false} StepsToLongest(ms: seq<Entry>, budget: int, from: nat)
    requires Fits(ms, budget, from)
    ensures LongestFit(ms, budget, RecentStart(ms, budget, from))
    decreases from
  {
    if from >= 2 && Runes(ms[from - 2..]) <= budget {
      StepsToLongest(ms, budget, from - 2);
    } else {
      forall s: nat | Fits(ms, budget, s) ensures from <= s {
        if s < from {
          SuffixRunes(ms, s, from - 2);
        }
      }
    }
  }

  /** What trimming keeps: the longest run of whole pairs at the end that fits. */
  lemma {:induction false} RecentIsLongest(ms: seq<Entry>, budget: int) returns (start: nat)
    requires budget > 0
    ensures LongestFit(ms, budget, start) && Recent(ms, budget) == ms[start..]
  {
    assert ms[|ms|..] == [];
    start := RecentStart(ms, budget, |ms|);
    StepsToLongest(ms, budget, |ms|);
  }

  // ---------- excerpts ----------

  function Clamp(x: int, hi: nat): nat {
    if x < 0 then 0 else if x < hi then x else hi
  }

  /** The marker, then all of the content or its head and tail around an ellipsis. */
  function Excerpt(marker: string, content: string, budget: int): (r: string)
    ensures budget >= 0 ==> |r| <= budget
  {
    if |content| + |marker| <= budget then marker + content
    else
      var available := budget - |marker| - 1;
      if available <= 0 then marker[..Clamp(budget, |marker|)]
      else
        var head := (available + 1) / 2;
        var tail := available - head;
        marker + content[..head] + ['…'] + content[|content| - tail..]
  }

  /** Head and tail of a content around an ellipsis. */
  function Ends(content: string, head: nat, tail: nat): string
    requires head + tail <= |content|
  {
    content[..head] + ['…'] + content[|content| - tail..]
  }

  /** With room beyond the marker, an excerpt shows the whole content, or exactly
      fills its budget with a head and a tail of equal length up to one. */
  lemma {:induction false} ExcerptQuotes(marker: string, content: string, budget: int)
    requires budget > |marker| + 1
    ensures |content| + |marker| <= budget ==> Excerpt(marker, content, budget) == marker + content
    ensures |content| + |marker| > budget ==>
              exists head: nat, tail: nat ::
                head + tail == budget - |marker| - 1 <= |content| && tail <= head <= tail + 1
                && Excerpt(marker, content, budget) == marker + Ends(content, head, tail)
  {
    if |content| + |marker| > budget {
      var available := budget - |marker| - 1;
      var head := (available + 1) / 2;
      var tail := available - head;
      assert head + tail == available <= |content| && tail <= head <= tail + 1;
      assert Excerpt(marker, content, budget) == marker + Ends(content, head, tail);
    }
  }

  // ---------- the whole ----------

  lemma {:induction false} RecentFits(ms: seq<Entry>, budget: nat)
    ensures EndsWithin(ms, Recent(ms, budget), budget)
  {
    if budget > 0 {
      var start := RecentIsLongest(ms, budget);
    }
  }

  predicate EndsWithin(ms: seq<Entry>, r: seq<Entry>, budget: nat) {
    |r| <= |ms| && ms[|ms| - |r|..] == r && Runes(r) <= budget
  }

  /** Recent turns get two thirds of the budget, or all of it if the newest turn needs that. */
  function KeptRecent(history: seq<Entry>, budget: nat): (r: seq<Entry>)
    ensures EndsWithin(history, r, budget)
  {
    RecentFits(history, budget - budget / 3);
    RecentFits(history, budget);
    var recent := Recent(history, budget - budget / 3);
    if recent == [] then Recent(history, budget) else recent
  }

  /** The excerpted messages: the opening pair, then the pairs nearest to the recent ones. */
  function Pick(older: nat, pairs: nat, k: nat): (i: nat)
    requires 2 * pairs <= older && k < 2 * pairs
    ensures i < older
  {
    if k < 2 then k else older - 2 * pairs + k
  }

  function ExcerptAt(marker: string, older: seq<Entry>, pairs: nat, perMessage: nat, k: nat): Entry
    requires 2 * pairs <= |older| && k < 2 * pairs
  {
    var m := older[Pick(|older|, pairs, k)];
    m.(content := Excerpt(marker, m.content, perMessage))
  }

  function Excerpts(marker: string, older: seq<Entry>, pairs: nat, perMessage: nat): (r: seq<Entry>)
    requires 2 * pairs <= |older|
    ensures |r| == 2 * pairs
  {
    seq(2 * pairs, k requires 0 <= k < 2 * pairs => ExcerptAt(marker, older, pairs, perMessage, k))
  }

  /** How a history that does not fit is split. */
  datatype Plan = Plan(recent: seq<Entry>, older: seq<Entry>, pairs: nat, perMessage: nat)

  function PairsFor(older: nat, remaining: nat): (r: nat)
    ensures 2 * r <= older
  {
    Min(older / 2, remaining / (2 * MIN_EXCERPT))
  }

  function Quotient(x: nat, d: nat): nat
    requires d > 0
  {
    x / d
  }

  function ShareFor(remaining: nat, pairs: nat): nat {
    if pairs == 0 then 0 else Min(MAX_EXCERPT, Quotient(remaining, 2 * pairs))
  }

  function Excerpted(marker: string, p: Plan): seq<Entry>
    requires 2 * p.pairs <= |p.older|
  {
    Excerpts(marker, p.older, p.pairs, p.perMessage) + p.recent
  }

  function PlanAround(older: seq<Entry>, recent: seq<Entry>, remaining: nat): (p: Plan)
    ensures 2 * p.pairs <= |p.older| && p.older == older && p.recent == recent
  {
    var pairs := PairsFor(|older|, remaining);
    Plan(recent, older, pairs, ShareFor(remaining, pairs))
  }

  function PlanFor(history: seq<Entry>, budget: nat): (p: Plan)
    ensures 2 * p.pairs <= |p.older| && p.older + p.recent == history
  {
    var recent := KeptRecent(history, budget);
    PlanAround(history[..|history| - |recent|], recent, budget - Runes(recent))
  }

  lemma {:induction false} PlanFits(history: seq<Entry>, budget: nat)
    ensures var p := PlanFor(history, budget); 2 * p.pairs * p.perMessage + Runes(p.recent) <= budget
  {
    var p := PlanFor(history, budget);
    PairsFit(|p.older|, budget - Runes(p.recent), p.pairs, p.perMessage);
  }

  lemma {:induction false} PairsFit(older: nat, remaining: nat, pairs: nat, perMessage: nat)
    requires pairs == PairsFor(older, remaining) && perMessage == ShareFor(remaining, pairs)
    ensures 2 * pairs * perMessage <= remaining
  {
    if pairs > 0 {
      Share(remaining, pairs);
    }
  }

  lemma {:induction false} PlanExcerpts(history: seq<Entry>, budget: nat)
    ensures var p := PlanFor(history, budget); p.pairs > 0 ==> MIN_EXCERPT <= p.perMessage <= MAX_EXCERPT
  {
    var p := PlanFor(history, budget);
    PairsExcerpt(|p.older|, budget - Runes(p.recent), p.pairs, p.perMessage);
  }

  lemma {:induction false} PairsExcerpt(older: nat, remaining: nat, pairs: nat, perMessage: nat)
    requires pairs == PairsFor(older, remaining) && perMessage == ShareFor(remaining, pairs)
    ensures pairs > 0 ==> MIN_EXCERPT <= perMessage <= MAX_EXCERPT
  {
    if pairs > 0 {
      Share(remaining, pairs);
    }
  }

  lemma {:induction false} Share(remaining: nat, pairs: nat)
    requires 0 < pairs <= remaining / (2 * MIN_EXCERPT)
    ensures MIN_EXCERPT <= ShareFor(remaining, pairs) && 2 * pairs * ShareFor(remaining, pairs) <= remaining
  {
    var d, each := 2 * pairs, Quotient(remaining, 2 * pairs);
    assert remaining == each * d + remaining % d;
    if each < MIN_EXCERPT {
      TimesGrow(each, MIN_EXCERPT - 1, d);
    }
    TimesGrow(Min(MAX_EXCERPT, each), each, d);
  }

  function Compacted(marker: string, history: seq<Entry>, budget: int): seq<Entry> {
    if budget <= 0 || |history| < 2 then []
    else if Runes(history) <= budget then history
    else
      Excerpted(marker, PlanFor(history, budget))
  }

  method CountRunes(ms: seq<Entry>) returns (total: nat)
    ensures total == Runes(ms)
  {
    total := 0;
    for i := 0 to |ms|
      invariant total + Runes(ms[i..]) == Runes(ms)
    {
      assert ms[i..][1..] == ms[i + 1..];
      total := total + |ms[i].content|;
    }
  }

  method CompactHistory(history: seq<Entry>, budget: int) returns (r: seq<Entry>)
    ensures r == Compacted(MARKER, history, budget)
  {
    r := CompactWith(MARKER, history, budget);
  }

  method KeepRecent(history: seq<Entry>, budget: nat) returns (recent: seq<Entry>)
    ensures recent == KeptRecent(history, budget)
  {
    recent := TrimToBudget(history, budget - budget / 3);
    if |recent| == 0 {
      recent := TrimToBudget(history, budget);
    }
  }

  method CompactWith(marker: string, history: seq<Entry>, budget: int) returns (r: seq<Entry>)
    ensures r == Compacted(marker, history, budget)
  {
    if budget <= 0 || |history| < 2 {
      return [];
    }
    var total := CountRunes(history);
    if total <= budget {
      return history;
    }
    var recent := KeepRecent(history, budget);
    var used := CountRunes(recent);
    r := CompactOlder(marker, history, budget, recent, used);
  }

  method CompactOlder(marker: string, history: seq<Entry>, budget: nat, recent: seq<Entry>, used: nat)
    returns (r: seq<Entry>)
    requires recent == KeptRecent(history, budget) && used == Runes(recent)
    ensures r == Excerpted(marker, PlanFor(history, budget))
  {
    PlanParts(history, budget);
    var remaining := budget - used;
    var older := history[..|history| - |recent|];
    var pairs := PairsFor(|older|, remaining);
    r := FollowPlan(marker, Plan(recent, older, pairs, ShareFor(remaining, pairs)));
  }

  method FollowPlan(marker: string, p: Plan) returns (r: seq<Entry>)
    requires 2 * p.pairs <= |p.older|
    ensures r == Excerpted(marker, p)
  {
    if p.pairs == 0 {
      NoExcerpts(marker, p.older, p.perMessage, p.recent);
      return p.recent;
    }
    r := BuildExcerpts(marker, p.older, p.pairs, p.perMessage);
    r := r + p.recent;
  }

  lemma {:induction false} PlanParts(history: seq<Entry>, budget: nat)
    ensures var recent := KeptRecent(history, budget);
            var older, remaining := history[..|history| - |recent|], budget - Runes(recent);
            var pairs := PairsFor(|older|, remaining);
            PlanFor(history, budget) == Plan(recent, older, pairs, ShareFor(remaining, pairs))
  {
  }

  lemma {:induction false} NoExcerpts(marker: string, older: seq<Entry>, perMessage: nat, recent: seq<Entry>)
    ensures Excerpts(marker, older, 0, perMessage) + recent == recent
  {
  }

  method BuildExcerpts(marker: string, older: seq<Entry>, pairs: nat, perMessage: nat) returns (r: seq<Entry>)
    requires 2 * pairs <= |older|
    ensures r == Excerpts(marker, older, pairs, perMessage)
  {
    r := [];
    for pair := 0 to pairs
      invariant |r| == 2 * pair
      invariant forall k :: 0 <= k < |r| ==> r[k] == ExcerptAt(marker, older, pairs, perMessage, k)
    {
      var start := 0;
      if pair > 0 {
        start := |older| - 2 * (pairs - pair);
      }
      for j := 0 to 2
        invariant |r| == 2 * pair + j
        invariant forall k :: 0 <= k < |r| ==> r[k] == ExcerptAt(marker, older, pairs, perMessage, k)
      {
        var original := older[start + j];
        assert Pick(|older|, pairs, 2 * pair + j) == start + j;
        r := r + [original.(content := Excerpt(marker, original.content, perMessage))];
      }
    }
  }

  // ---------- the promises ----------

  lemma {:induction false} MarkerIsShort()
    ensures |MARKER| + 1 < MIN_EXCERPT
  {
  }

  lemma {:induction false} BoundedEach(ms: seq<Entry>, per: nat)
    requires forall m | m in ms :: |m.content| <= per
    ensures Runes(ms) <= |ms| * per
    decreases |ms|
  {
    if ms != [] {
      assert ms[0] in ms && forall m | m in ms[1..] :: m in ms;
      BoundedEach(ms[1..], per);
      assert |ms| * per == (|ms| - 1) * per + per;
    }
  }

  /** Never more runes than the budget. */
  lemma {:induction false} WithinBudget(marker: string, history: seq<Entry>, budget: int)
    ensures Runes(Compacted(marker, history, budget)) <= if budget > 0 then budget else 0
  {
    if budget > 0 && |history| >= 2 && Runes(history) > budget {
      var p := PlanFor(history, budget);
      PlanFits(history, budget);
      var excerpts := Excerpts(marker, p.older, p.pairs, p.perMessage);
      BoundedEach(excerpts, p.perMessage);
      RunesAppend(excerpts, p.recent);
    }
  }

  /** Where each kept message comes from. */
  function Origin(p: Plan, k: nat): nat
    requires 2 * p.pairs <= |p.older|
  {
    if k < 2 * p.pairs then Pick(|p.older|, p.pairs, k) else |p.older| + k - 2 * p.pairs
  }

  lemma {:induction false} OriginIncreases(p: Plan, j: nat, k: nat)
    requires 2 * p.pairs <= |p.older| && j < k
    ensures Origin(p, j) < Origin(p, k)
    ensures k < 2 * p.pairs + |p.recent| ==> Origin(p, k) < |p.older| + |p.recent|
  {
  }

  /** One kept message against its original. */
  lemma {:induction false} KeptMessage(marker: string, p: Plan, k: nat)
    requires 2 * p.pairs <= |p.older| && k < 2 * p.pairs + |p.recent|
    ensures var r, history := Excerpted(marker, p), p.older + p.recent;
            var original := history[Origin(p, k)];
            r[k] ==
                    if k < 2 * p.pairs then original.(content := Excerpt(marker, original.content, p.perMessage))
                    else original
  {
  }

  /** One kept message: it comes later than those before it, with its role, marked
      and quoted if it is an excerpt and verbatim otherwise. */
  ghost predicate Kept(marker: string, p: Plan, history: seq<Entry>, r: seq<Entry>, k: nat)
    requires 2 * p.pairs <= |p.older| && k < |r|
  {
    && Origin(p, k) < |history| && (forall j: nat | j < k :: Origin(p, j) < Origin(p, k))
    && r[k].role == history[Origin(p, k)].role
    && (if k < 2 * p.pairs then Marked(marker, history[Origin(p, k)].content, r[k].content)
        else r[k] == history[Origin(p, k)])
    && (p.pairs > 0 ==> Origin(p, 0) == 0 && Origin(p, 1) == 1)
  }

  lemma {:induction false} PlanKeeps(marker: string, p: Plan, k: nat)
    requires 2 * p.pairs <= |p.older| && |marker| + 1 < MIN_EXCERPT && (p.pairs > 0 ==> MIN_EXCERPT <= p.perMessage)
    requires k < 2 * p.pairs + |p.recent|
    ensures Kept(marker, p, p.older + p.recent, Excerpted(marker, p), k)
  {
    KeptMessage(marker, p, k);
    OriginIncreases(p, k, k + 1);
    forall j: nat | j < k ensures Origin(p, j) < Origin(p, k) {
      OriginIncreases(p, j, k);
    }
    if k < 2 * p.pairs {
      ExcerptQuotes(marker, (p.older + p.recent)[Origin(p, k)].content, p.perMessage);
    }
  }

  /** Kept messages come in their original order with their roles; the opening
      pair is first among the excerpts, every excerpt is marked and quotes its
      own original, and the rest is the history's verbatim end. */
  lemma {:induction false} KeepsOrder(marker: string, history: seq<Entry>, budget: int, k: nat)
    requires budget > 0 && |history| >= 2 && Runes(history) > budget && |marker| + 1 < MIN_EXCERPT
    requires k < |Compacted(marker, history, budget)|
    ensures Kept(marker, PlanFor(history, budget), history, Compacted(marker, history, budget), k)
  {
    PlanExcerpts(history, budget);
    PlanKeeps(marker, PlanFor(history, budget), k);
  }

  /** A marked excerpt: the whole content, or its two ends. */
  ghost predicate Marked(marker: string, content: string, r: string) {
    || r == marker + content
    || exists head: nat, tail: nat :: head + tail <= |content| && r == marker + Ends(content, head, tail)
  }

  /** The verbatim end is the longest run of whole pairs that fits its share of the
      budget, and the newest pair is lost only if it alone exceeds the budget. */
  lemma {:induction false} RecentShare(history: seq<Entry>, budget: nat) returns (start: nat)
    requires budget > 0 && |history| >= 2
    ensures start <= |history| && KeptRecent(history, budget) == history[start..]
    ensures var newest, share := Runes(history[|history| - 2..]), budget - budget / 3;
            && LongestFit(history, if newest <= share then share else budget, start)
            && (start == |history| <==> newest > budget)
  {
    var share := budget - budget / 3;
    var first := NewestDecides(history, share);
    var second := NewestDecides(history, budget);
    start := if first == |history| then second else first;
  }

  lemma {:induction false} NewestDecides(history: seq<Entry>, budget: int) returns (start: nat)
    requires budget > 0 && |history| >= 2
    ensures LongestFit(history, budget, start) && Recent(history, budget) == history[start..]
    ensures start == |history| <==> Runes(history[|history| - 2..]) > budget
  {
    start := RecentIsLongest(history, budget);
    if start < |history| {
      SuffixRunes(history, start, |history| - 2);
    } else {
      assert !Fits(history, budget, |history| - 2);
    }
  }
}
