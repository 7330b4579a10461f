/** Plain text: trimming, occurrences and joined lines. */
module Text {

  predicate IsSpace(c: char) {
    '\U{0009}' <= c <= '\U{000D}' || c == ' ' || c == '\U{0085}' || c == '\U{00A0}' || c == '\U{1680}'
    || '\U{2000}' <= c <= '\U{200A}' || c == '\U{2028}' || c == '\U{2029}' || c == '\U{202F}' || c == '\U{205F}'
    || c == '\U{3000}'
  }

  function TrimLeft(s: string): string {
    if s != [] && IsSpace(s[0]) then TrimLeft(s[1..]) else s
  }

  function TrimRight(s: string): string {
    if s != [] && IsSpace(s[|s| - 1]) then TrimRight(s[..|s| - 1]) else s
  }

  function Trim(s: string): string {
    TrimRight(TrimLeft(s))
  }

  // ---------- occurrences ----------

  predicate Occurs(text: string, term: string, i: nat) {
    i + |term| <= |text| && text[i..i + |term|] == term
  }

  predicate Contains(text: string, term: string) {
    exists i | 0 <= i <= |text| :: Occurs(text, term, i)
  }

  /** The last place a term occurs, or -1. */
  function LastIndex(text: string, term: string): (r: int)
    ensures -1 <= r <= |text|
    ensures r >= 0 ==> Occurs(text, term, r)
    ensures forall i: nat :: Occurs(text, term, i) ==> i <= r
  {
    LastIndexFrom(text, term, |text|)
  }

  function LastIndexFrom(text: string, term: string, from: nat): (r: int)
    ensures -1 <= r <= from
    ensures r >= 0 ==> Occurs(text, term, r)
    ensures forall i: nat :: i <= from && Occurs(text, term, i) ==> i <= r
  {
    if Occurs(text, term, from) then from
    else if from == 0 then -1
    else LastIndexFrom(text, term, from - 1)
  }

  lemma {:induction false} OccursIn(text: string, term: string, i: nat)
    requires Occurs(text, term, i)
    ensures Contains(text, term)
  {
  }

  /** An occurrence in a slice is one in the whole, and conversely if it fits. */
  lemma {:induction false} OccursSlice(text: string, term: string, lo: nat, hi: nat, i: nat)
    requires lo <= hi <= |text| && lo <= i && i + |term| <= hi
    ensures Occurs(text[lo..hi], term, i - lo) <==> Occurs(text, term, i)
  {
    var inner, outer := text[lo..hi][i - lo..i - lo + |term|], text[i..i + |term|];
    assert forall k | 0 <= k < |term| :: inner[k] == outer[k];
    assert inner == outer;
  }

  /** A slice contains no more than the whole. */
  lemma {:induction false} ContainsSlice(text: string, term: string, lo: nat, hi: nat)
    requires lo <= hi <= |text| && Contains(text[lo..hi], term)
    ensures Contains(text, term)
  {
    var i :| 0 <= i <= hi - lo && Occurs(text[lo..hi], term, i);
    OccursSlice(text, term, lo, hi, lo + i);
    OccursIn(text, term, lo + i);
  }

  // ---------- trimming ----------

  /** Where the trimmed text sits: everything cut off is space. */
  lemma {:induction false} TrimLeftSpan(s: string) returns (lo: nat)
    ensures lo <= |s| && TrimLeft(s) == s[lo..] && forall i | 0 <= i < lo :: IsSpace(s[i])
    decreases |s|
  {
    if s != [] && IsSpace(s[0]) {
      var k := TrimLeftSpan(s[1..]);
      lo := k + 1;
      assert s[1..][k..] == s[lo..];
    } else {
      lo := 0;
    }
  }

  lemma {:induction false} TrimRightSpan(s: string) returns (hi: nat)
    ensures hi <= |s| && TrimRight(s) == s[..hi] && forall i | hi <= i < |s| :: IsSpace(s[i])
    decreases |s|
  {
    if s != [] && IsSpace(s[|s| - 1]) {
      hi := TrimRightSpan(s[..|s| - 1]);
      assert s[..|s| - 1][..hi] == s[..hi];
    } else {
      hi := |s|;
    }
  }

  lemma {:induction false} TrimSpan(s: string) returns (lo: nat, hi: nat)
    ensures lo <= hi <= |s| && Trim(s) == s[lo..hi]
    ensures forall i | 0 <= i < |s| && !(lo <= i < hi) :: IsSpace(s[i])
  {
    lo := TrimLeftSpan(s);
    var n := TrimRightSpan(s[lo..]);
    hi := lo + n;
    assert s[lo..][..n] == s[lo..hi];
    assert forall i | hi <= i < |s| :: s[i] == s[lo..][i - lo];
  }

  /** A term that neither starts nor ends with space. */
  predicate Solid(term: string) {
    term != "" && !IsSpace(term[0]) && !IsSpace(term[|term| - 1])
  }

  lemma {:induction false} TrimKeepsTerm(s: string, term: string)
    requires Solid(term)
    ensures Contains(Trim(s), term) <==> Contains(s, term)
  {
    var lo, hi := TrimSpan(s);
    if Contains(s, term) {
      var i :| 0 <= i <= |s| && Occurs(s, term, i);
      OccursUntrimmed(s, term, lo, hi, i);
      OccursSlice(s, term, lo, hi, i);
      OccursIn(Trim(s), term, i - lo);
    }
    if Contains(Trim(s), term) {
      ContainsSlice(s, term, lo, hi);
    }
  }

  lemma {:induction false} OccursUntrimmed(s: string, term: string, lo: nat, hi: nat, i: nat)
    requires Solid(term) && Occurs(s, term, i) && lo <= hi <= |s|
    requires forall j | 0 <= j < |s| && !(lo <= j < hi) :: IsSpace(s[j])
    ensures lo <= i && i + |term| <= hi
  {
    assert s[i] == s[i..i + |term|][0];
    assert s[i + |term| - 1] == s[i..i + |term|][|term| - 1];
  }

  // ---------- lines ----------

  function JoinLines(lines: seq<string>): string {
    if lines == [] then "" else if |lines| == 1 then lines[0] else lines[0] + "\n" + JoinLines(lines[1..])
  }

  lemma {:induction false} NoStraddle(a: string, b: string, term: string, i: nat)
    requires term != "" && '\n' !in term && Occurs(a + "\n" + b, term, i)
    ensures i + |term| <= |a| || |a| < i
  {
    var all := a + "\n" + b;
    assert all[|a|] == '\n';
    assert forall k | 0 <= k < |term| :: term[k] == all[i..i + |term|][k] && term[k] in term;
  }

  /** A term without a line break does not straddle one. */
  lemma {:induction false} LineBreakSplits(a: string, b: string, term: string)
    requires term != "" && '\n' !in term
    ensures Contains(a + "\n" + b, term) <==> Contains(a, term) || Contains(b, term)
  {
    var all := a + "\n" + b;
    assert all[0..|a|] == a && all[|a| + 1..|all|] == b;
    if Contains(a, term) {
      ContainsSlice(all, term, 0, |a|);
    }
    if Contains(b, term) {
      ContainsSlice(all, term, |a| + 1, |all|);
    }
    if Contains(all, term) {
      var i :| 0 <= i <= |all| && Occurs(all, term, i);
      NoStraddle(a, b, term, i);
      if i < |a| {
        OccursSlice(all, term, 0, |a|, i);
        OccursIn(a, term, i);
      } else {
        OccursSlice(all, term, |a| + 1, |all|, i);
        OccursIn(b, term, i - |a| - 1);
      }
    }
  }

  lemma {:induction false} LinesSplit(lines: seq<string>, term: string)
    requires term != "" && '\n' !in term
    ensures Contains(JoinLines(lines), term) <==> exists line | line in lines :: Contains(line, term)
    decreases |lines|
  {
    if |lines| > 1 {
      LineBreakSplits(lines[0], JoinLines(lines[1..]), term);
      LinesSplit(lines[1..], term);
      assert forall line :: line in lines <==> line == lines[0] || line in lines[1..];
    }
  }
}
