/** Which payment offer a conversation has earned: the latest stance on paying,
    found by a last-index search over term lists, alone decides. */
module PaymentDecision {
  import opened Text
  import opened ToolPolicy

  /** Term lists, the pointwise lower-casing and the test for a concrete detail. */
  datatype Vocabulary = Vocabulary(
    lower: char -> char, negative: seq<string>, purchase: seq<string>, language: seq<string>, detail: string -> bool)
  {
    function Lower(s: string): (r: string)
      ensures |r| == |s|
    {
      seq(|s|, i requires 0 <= i < |s| => lower(s[i]))
    }
  }

  /** Lower-casing settles at once and moves neither spaces nor line breaks; terms
      are solid and stay on one line. */
  ghost predicate Sound(v: Vocabulary) {
    && (forall c: char :: v.lower(v.lower(c)) == v.lower(c))
    && (forall c: char :: IsSpace(v.lower(c)) == IsSpace(c))
    && (forall c: char :: v.lower(c) == '\n' <==> c == '\n')
    && (forall t | t in v.negative + v.purchase + v.language :: Solid(t) && '\n' !in t)
  }

  // ---------- term search ----------

  /** The range of the last occurrence of any term, the longest one of several. */
  function LastRange(v: Vocabulary, text: string, terms: seq<string>): (int, int) {
    if terms == [] then (-1, -1)
    else Better(LastRange(v, text, terms[..|terms| - 1]),
                LastIndex(text, v.Lower(terms[|terms| - 1])), |terms[|terms| - 1]|)
  }

  function Better(best: (int, int), index: int, length: nat): (int, int) {
    if index >= 0 && (index > best.0 || (index == best.0 && index + length > best.1))
    then (index, index + length) else best
  }

  method LastTermRange(v: Vocabulary, text: string, terms: seq<string>) returns (start: int, end: int)
    ensures (start, end) == LastRange(v, text, terms)
  {
    start, end := -1, -1;
    for i := 0 to |terms|
      invariant (start, end) == LastRange(v, text, terms[..i])
    {
      assert terms[..i + 1][..i] == terms[..i] && terms[..i + 1][i] == terms[i];
      var index := LastIndex(text, v.Lower(terms[i]));
      if index >= 0 {
        var termEnd := index + |terms[i]|;
        if index > start || (index == start && termEnd > end) {
          start, end := index, termEnd;
        }
      }
    }
    assert terms[..|terms|] == terms;
  }

  predicate ContainsAny(v: Vocabulary, text: string, terms: seq<string>) {
    exists t | t in terms :: Contains(text, v.Lower(t))
  }

  /** What the range means: it is an occurrence of a term, and no term occurs
      later, or at the same place and longer. */
  lemma {:induction false} LastRangeSpec(v: Vocabulary, text: string, terms: seq<string>)
    ensures var (start, end) := LastRange(v, text, terms);
            && -1 <= start <= |text| && (start == -1 ==> end == -1)
            && (start >= 0 <==> ContainsAny(v, text, terms))
            && (start >= 0 ==> exists t | t in terms :: Occurs(text, v.Lower(t), start) && end == start + |t|)
            && (forall t, i: nat | t in terms && Occurs(text, v.Lower(t), i) ::
                  i < start || (i == start && i + |t| <= end))
    decreases |terms|
  {
    if terms != [] {
      var before, last := terms[..|terms| - 1], terms[|terms| - 1];
      LastRangeSpec(v, text, before);
      assert terms == before + [last];
      var index := LastIndex(text, v.Lower(last));
      if index >= 0 {
        OccursIn(text, v.Lower(last), index);
      }
    }
  }

  // ---------- the word "pay" ----------

  predicate IsWord(c: char) {
    'a' <= c <= 'z' || 'A' <= c <= 'Z' || '0' <= c <= '9' || c == '_'
  }

  predicate Boundary(text: string, i: nat) {
    i <= |text| && (i == 0 || !IsWord(text[i - 1]))
  }

  /** The word on its own, in lower-cased text. */
  predicate PayAt(text: string, i: nat) {
    Occurs(text, "pay", i) && Boundary(text, i) && (i + 3 == |text| || !IsWord(text[i + 3]))
  }

  predicate HasPay(text: string) {
    exists i | 0 <= i <= |text| :: PayAt(text, i)
  }

  function LastPay(text: string): (r: int)
    ensures -1 <= r <= |text| && (r >= 0 ==> PayAt(text, r)) && forall i: nat :: PayAt(text, i) ==> i <= r
  {
    LastPayFrom(text, |text|)
  }

  function LastPayFrom(text: string, from: nat): (r: int)
    ensures -1 <= r <= from && (r >= 0 ==> PayAt(text, r)) && forall i: nat :: i <= from && PayAt(text, i) ==> i <= r
  {
    if PayAt(text, from) then from else if from == 0 then -1 else LastPayFrom(text, from - 1)
  }

  predicate Language(v: Vocabulary, text: string) {
    ContainsAny(v, text, v.language) || HasPay(text)
  }

  function LastLanguage(v: Vocabulary, text: string): int {
    var start, pay := LastRange(v, text, v.language).0, LastPay(text);
    if pay > start then pay else start
  }

  // ---------- stances ----------

  datatype Stance = NoStance | Negative(offset: nat) | Interested(offset: nat)

  function LatestStance(v: Vocabulary, message: string): Stance {
    var text := v.Lower(message);
    var (negativeStart, negativeEnd) := LastRange(v, text, v.negative);
    var purchaseStart := LastRange(v, text, v.purchase).0;
    if purchaseStart >= 0 && (negativeStart < 0 || purchaseStart >= negativeEnd) then Interested(purchaseStart)
    else if negativeStart >= 0 then Negative(negativeStart)
    else if LastLanguage(v, text) >= 0 then Interested(LastLanguage(v, text))
    else NoStance
  }

  /** The last message that takes a stance, or -1. */
  function Anchor(v: Vocabulary, messages: seq<string>): (a: int)
    ensures -1 <= a < |messages|
    ensures a >= 0 ==> LatestStance(v, messages[a]) != NoStance
    ensures forall i | a < i < |messages| :: LatestStance(v, messages[i]) == NoStance
  {
    if messages == [] then -1
    else if LatestStance(v, messages[|messages| - 1]) != NoStance then |messages| - 1
    else Anchor(v, messages[..|messages| - 1])
  }

  /** What the anchor message still says from its stance on, and everything after. */
  function Decided(v: Vocabulary, messages: seq<string>): seq<string> {
    var a := Anchor(v, messages);
    if a < 0 then messages
    else
      OffsetInside(v, messages[a]);
      [messages[a][LatestStance(v, messages[a]).offset..]] + messages[a + 1..]
  }

  lemma {:induction false} OffsetInside(v: Vocabulary, message: string)
    ensures LatestStance(v, message) != NoStance ==> LatestStance(v, message).offset <= |message|
  {
    var text := v.Lower(message);
    LastRangeSpec(v, text, v.negative);
    LastRangeSpec(v, text, v.purchase);
    LastRangeSpec(v, text, v.language);
  }

  method LatestPaymentDecisionText(v: Vocabulary, messages: seq<string>) returns (text: string)
    ensures text == JoinLines(Decided(v, messages))
  {
    var anchor, offset := -1, 0;
    for i := 0 to |messages|
      invariant anchor == Anchor(v, messages[..i])
      invariant anchor >= 0 ==>
                  LatestStance(v, messages[anchor]) != NoStance && offset == LatestStance(v, messages[anchor]).offset
    {
      assert messages[..i + 1][..i] == messages[..i] && messages[..i + 1][i] == messages[i];
      var stance := LatestStance(v, messages[i]);
      if stance != NoStance {
        anchor, offset := i, stance.offset;
      }
    }
    assert messages[..|messages|] == messages;
    if anchor < 0 {
      return JoinLines(messages);
    }
    OffsetInside(v, messages[anchor]);
    var rest := messages[anchor..];
    CutFirst(messages, anchor, rest[0][offset..]);
    rest := rest[0 := rest[0][offset..]];
    text := JoinLines(rest);
  }

  lemma {:induction false} CutFirst(messages: seq<string>, a: nat, cut: string)
    requires a < |messages|
    ensures messages[a..][0 := cut] == [cut] + messages[a + 1..]
  {
  }

  /** What was said before the anchor never matters. */
  lemma {:induction false} EarlierIsIgnored(v: Vocabulary, earlier: seq<string>, messages: seq<string>)
    requires Anchor(v, messages) >= 0
    ensures Decided(v, earlier + messages) == Decided(v, messages)
  {
    var all, a, b := earlier + messages, Anchor(v, messages), Anchor(v, earlier + messages);
    assert all[|earlier| + a] == messages[a];
    assert b >= |earlier| + a;
    assert all[b] == messages[b - |earlier|];
    assert b == |earlier| + a;
    assert all[b + 1..] == messages[a + 1..];
  }

  // ---------- the offer ----------

  predicate HasNegative(v: Vocabulary, text: string) {
    ContainsAny(v, v.Lower(Trim(text)), v.negative)
  }

  predicate HasLanguage(v: Vocabulary, text: string) {
    Language(v, v.Lower(Trim(text)))
  }

  function OfferFor(v: Vocabulary, hidden: bool, original: string): OfferState {
    if hidden then Blocked
    else
      var text := v.Lower(Trim(original));
      if HasNegative(v, text) then OfferNone
      else if !HasLanguage(v, text) then OfferNone
      else if !ContainsAny(v, text, v.purchase) then NeedsDetails
      else if !v.detail(text) then NeedsDetails
      else Ready
  }

  // ---------- trimming, lower-casing and joining change no verdict ----------

  lemma {:induction false} LowerTwice(v: Vocabulary, s: string)
    requires Sound(v)
    ensures v.Lower(v.Lower(s)) == v.Lower(s)
  {
  }

  lemma {:induction false} LowerTrimLeft(v: Vocabulary, s: string)
    requires Sound(v)
    ensures v.Lower(TrimLeft(s)) == TrimLeft(v.Lower(s))
    decreases |s|
  {
    if s != [] && IsSpace(s[0]) {
      LowerTrimLeft(v, s[1..]);
      assert v.Lower(s)[1..] == v.Lower(s[1..]);
    }
  }

  lemma {:induction false} LowerTrimRight(v: Vocabulary, s: string)
    requires Sound(v)
    ensures v.Lower(TrimRight(s)) == TrimRight(v.Lower(s))
    decreases |s|
  {
    if s != [] && IsSpace(s[|s| - 1]) {
      LowerTrimRight(v, s[..|s| - 1]);
      assert v.Lower(s)[..|s| - 1] == v.Lower(s[..|s| - 1]);
    }
  }

  lemma {:induction false} LowerTrim(v: Vocabulary, s: string)
    requires Sound(v)
    ensures v.Lower(Trim(s)) == Trim(v.Lower(s))
  {
    LowerTrimLeft(v, s);
    LowerTrimRight(v, TrimLeft(s));
  }

  ghost predicate Listed(v: Vocabulary, terms: seq<string>) {
    forall t | t in terms :: Solid(t) && '\n' !in t
  }

  lemma {:induction false} LowerTerm(v: Vocabulary, t: string)
    requires Sound(v) && Solid(t) && '\n' !in t
    ensures Solid(v.Lower(t)) && '\n' !in v.Lower(t)
  {
    assert forall i | 0 <= i < |t| :: t[i] in t;
  }

  lemma {:induction false} TrimKeepsAny(v: Vocabulary, s: string, terms: seq<string>)
    requires Sound(v) && Listed(v, terms)
    ensures ContainsAny(v, Trim(s), terms) <==> ContainsAny(v, s, terms)
  {
    forall t | t in terms ensures Contains(Trim(s), v.Lower(t)) <==> Contains(s, v.Lower(t)) {
      LowerTerm(v, t);
      TrimKeepsTerm(s, v.Lower(t));
    }
  }

  /** No word reaches across the ends of the slice. */
  predicate Severed(s: string, lo: nat, hi: nat) {
    lo <= hi <= |s| && (lo == 0 || !IsWord(s[lo - 1])) && (hi == |s| || !IsWord(s[hi]))
  }

  /** Spaces are no word characters, so trimming neither makes nor breaks a word. */
  lemma {:induction false} PaySlice(s: string, lo: nat, hi: nat, i: nat)
    requires Severed(s, lo, hi)
    requires lo <= i && i + 3 <= hi
    ensures PayAt(s[lo..hi], i - lo) <==> PayAt(s, i)
  {
    OccursSlice(s, "pay", lo, hi, i);
  }

  lemma {:induction false} PayIn(s: string, i: nat)
    requires PayAt(s, i)
    ensures HasPay(s)
  {
  }

  lemma {:induction false} PayInSlice(s: string, lo: nat, hi: nat)
    requires Severed(s, lo, hi)
    requires HasPay(s[lo..hi])
    ensures HasPay(s)
  {
    var i :| 0 <= i <= |s[lo..hi]| && PayAt(s[lo..hi], i);
    PaySlice(s, lo, hi, lo + i);
    PayIn(s, lo + i);
  }

  lemma {:induction false} PayInWhole(s: string, lo: nat, hi: nat, i: nat)
    requires Severed(s, lo, hi)
    requires lo <= i && i + 3 <= hi && PayAt(s, i)
    ensures HasPay(s[lo..hi])
  {
    PaySlice(s, lo, hi, i);
    PayIn(s[lo..hi], i - lo);
  }

  lemma {:induction false} TrimKeepsPay(s: string)
    ensures HasPay(Trim(s)) <==> HasPay(s)
  {
    var lo, hi := TrimSpan(s);
    if HasPay(s) {
      var i :| 0 <= i <= |s| && PayAt(s, i);
      OccursUntrimmed(s, "pay", lo, hi, i);
      PayInWhole(s, lo, hi, i);
    } else if HasPay(Trim(s)) {
      PayInSlice(s, lo, hi);
    }
  }

  lemma {:induction false} PayLineBreak(a: string, b: string)
    ensures HasPay(a + "\n" + b) <==> HasPay(a) || HasPay(b)
  {
    var all := a + "\n" + b;
    assert all[0..|a|] == a && all[|a| + 1..|all|] == b;
    if HasPay(a) {
      PayInSlice(all, 0, |a|);
    } else if HasPay(b) {
      PayInSlice(all, |a| + 1, |all|);
    } else if HasPay(all) {
      var i :| 0 <= i <= |all| && PayAt(all, i);
      NoStraddle(a, b, "pay", i);
      if i < |a| {
        PayInWhole(all, 0, |a|, i);
      } else {
        PayInWhole(all, |a| + 1, |all|, i);
      }
    }
  }

  lemma {:induction false} PayLines(lines: seq<string>)
    ensures HasPay(JoinLines(lines)) <==> exists line | line in lines :: HasPay(line)
    decreases |lines|
  {
    if |lines| > 1 {
      PayLineBreak(lines[0], JoinLines(lines[1..]));
      PayLines(lines[1..]);
      assert forall line :: line in lines <==> line == lines[0] || line in lines[1..];
    }
  }

  lemma {:induction false} AnyLines(v: Vocabulary, lines: seq<string>, terms: seq<string>)
    requires Sound(v) && Listed(v, terms)
    ensures ContainsAny(v, JoinLines(lines), terms) <==> exists line | line in lines :: ContainsAny(v, line, terms)
  {
    forall t | t in terms
      ensures Contains(JoinLines(lines), v.Lower(t)) <==> exists line | line in lines :: Contains(line, v.Lower(t))
    {
      LowerTerm(v, t);
      LinesSplit(lines, v.Lower(t));
    }
  }

  function LowerAll(v: Vocabulary, lines: seq<string>): (r: seq<string>)
    ensures |r| == |lines|
  {
    seq(|lines|, i requires 0 <= i < |lines| => v.Lower(lines[i]))
  }

  lemma {:induction false} LowerLines(v: Vocabulary, lines: seq<string>)
    requires Sound(v)
    ensures v.Lower(JoinLines(lines)) == JoinLines(LowerAll(v, lines))
    decreases |lines|
  {
    if |lines| > 1 {
      LowerLines(v, lines[1..]);
      assert LowerAll(v, lines)[1..] == LowerAll(v, lines[1..]);
      var a, b := lines[0], JoinLines(lines[1..]);
      assert v.Lower(a + "\n" + b) == v.Lower(a) + "\n" + v.Lower(b);
    }
  }

  // ---------- the offer, line by line ----------

  ghost predicate AnyLine(v: Vocabulary, lines: seq<string>, terms: seq<string>) {
    exists line | line in lines :: ContainsAny(v, v.Lower(line), terms)
  }

  ghost predicate LanguageLine(v: Vocabulary, lines: seq<string>) {
    exists line | line in lines :: Language(v, v.Lower(line))
  }

  lemma {:induction false} LowerAllMembers(v: Vocabulary, lines: seq<string>)
    ensures forall line | line in lines :: v.Lower(line) in LowerAll(v, lines)
    ensures forall l | l in LowerAll(v, lines) :: exists line | line in lines :: v.Lower(line) == l
  {
    forall line | line in lines ensures v.Lower(line) in LowerAll(v, lines) {
      var i :| 0 <= i < |lines| && lines[i] == line;
      assert LowerAll(v, lines)[i] == v.Lower(line);
    }
    forall l | l in LowerAll(v, lines) ensures exists line | line in lines :: v.Lower(line) == l {
      var i :| 0 <= i < |lines| && LowerAll(v, lines)[i] == l;
      assert lines[i] in lines;
    }
  }

  lemma {:induction false} SeesTerms(v: Vocabulary, lines: seq<string>, terms: seq<string>)
    requires Sound(v) && Listed(v, terms)
    ensures ContainsAny(v, v.Lower(Trim(JoinLines(lines))), terms) <==> AnyLine(v, lines, terms)
  {
    var text := JoinLines(lines);
    LowerTrim(v, text);
    TrimKeepsAny(v, v.Lower(text), terms);
    LowerLines(v, lines);
    AnyLines(v, LowerAll(v, lines), terms);
    LowerAllMembers(v, lines);
  }

  lemma {:induction false} SeesPay(v: Vocabulary, lines: seq<string>)
    requires Sound(v)
    ensures HasPay(v.Lower(Trim(JoinLines(lines)))) <==> exists line | line in lines :: HasPay(v.Lower(line))
  {
    var text := JoinLines(lines);
    LowerTrim(v, text);
    TrimKeepsPay(v.Lower(text));
    LowerLines(v, lines);
    PayLines(LowerAll(v, lines));
    LowerAllMembers(v, lines);
  }

  /** A second trim and lower-casing sees the same. */
  lemma {:induction false} Again(v: Vocabulary, s: string, terms: seq<string>)
    requires Sound(v) && Listed(v, terms)
    ensures ContainsAny(v, v.Lower(Trim(v.Lower(s))), terms) <==> ContainsAny(v, v.Lower(s), terms)
    ensures HasPay(v.Lower(Trim(v.Lower(s)))) <==> HasPay(v.Lower(s))
  {
    LowerTrim(v, v.Lower(s));
    LowerTwice(v, s);
    TrimKeepsAny(v, v.Lower(s), terms);
    TrimKeepsPay(v.Lower(s));
  }

  lemma {:induction false} Lists(v: Vocabulary)
    requires Sound(v)
    ensures Listed(v, v.negative) && Listed(v, v.purchase) && Listed(v, v.language)
  {
  }

  lemma {:induction false} OfferByLines(v: Vocabulary, hidden: bool, lines: seq<string>)
    requires Sound(v)
    ensures var text := JoinLines(lines);
            OfferFor(v, hidden, text) ==
            if hidden then Blocked
            else if AnyLine(v, lines, v.negative) || !LanguageLine(v, lines) then OfferNone
            else if !AnyLine(v, lines, v.purchase) || !v.detail(v.Lower(Trim(text))) then NeedsDetails
            else Ready
  {
    var trimmed := Trim(JoinLines(lines));
    Lists(v);
    Again(v, trimmed, v.negative);
    Again(v, trimmed, v.language);
    SeesTerms(v, lines, v.negative);
    SeesTerms(v, lines, v.purchase);
    SeesTerms(v, lines, v.language);
    SeesPay(v, lines);
  }

  // ---------- the latest stance decides ----------

  ghost predicate Silent(v: Vocabulary, line: string) {
    var text := v.Lower(line);
    !ContainsAny(v, text, v.negative) && !ContainsAny(v, text, v.purchase) && !Language(v, text)
  }

  lemma {:induction false} SilentMessage(v: Vocabulary, message: string)
    ensures LatestStance(v, message) == NoStance <==> Silent(v, message)
  {
    var text := v.Lower(message);
    LastRangeSpec(v, text, v.negative);
    LastRangeSpec(v, text, v.purchase);
    LastRangeSpec(v, text, v.language);
    if LastPay(text) >= 0 {
      assert PayAt(text, LastPay(text));
    }
  }

  lemma {:induction false} StartsWithTerm(v: Vocabulary, text: string, terms: seq<string>, o: nat)
    requires LastRange(v, text, terms).0 == o
    ensures o <= |text| && ContainsAny(v, text[o..], terms)
  {
    LastRangeSpec(v, text, terms);
    var t :| t in terms && Occurs(text, v.Lower(t), o) && LastRange(v, text, terms).1 == o + |t|;
    OccursSlice(text, v.Lower(t), o, |text|, o);
    assert text[o..|text|] == text[o..];
    OccursIn(text[o..], v.Lower(t), 0);
  }

  /** Nothing of a list is left behind the end of its last range. */
  lemma {:induction false} NothingAfter(v: Vocabulary, text: string, terms: seq<string>, o: nat)
    requires o <= |text| && LastRange(v, text, terms).1 <= o && forall t | t in terms :: t != ""
    ensures !ContainsAny(v, text[o..], terms)
  {
    LastRangeSpec(v, text, terms);
    if ContainsAny(v, text[o..], terms) {
      var t :| t in terms && Contains(text[o..], v.Lower(t));
      var i :| 0 <= i <= |text[o..]| && Occurs(text[o..], v.Lower(t), i);
      assert text[o..|text|] == text[o..];
      OccursSlice(text, v.Lower(t), o, |text|, o + i);
    }
  }

  function Cut(v: Vocabulary, message: string): string
    requires LatestStance(v, message) != NoStance
  {
    OffsetInside(v, message);
    message[LatestStance(v, message).offset..]
  }

  lemma {:induction false} RefusalStays(v: Vocabulary, message: string)
    requires LatestStance(v, message).Negative?
    ensures ContainsAny(v, v.Lower(Cut(v, message)), v.negative)
  {
    var text, o := v.Lower(message), LatestStance(v, message).offset;
    OffsetInside(v, message);
    assert v.Lower(Cut(v, message)) == text[o..];
    StartsWithTerm(v, text, v.negative, o);
  }

  lemma {:induction false} InterestStays(v: Vocabulary, message: string)
    requires Sound(v) && LatestStance(v, message).Interested?
    ensures !ContainsAny(v, v.Lower(Cut(v, message)), v.negative)
    ensures ContainsAny(v, v.Lower(Cut(v, message)), v.purchase) <==> ContainsAny(v, v.Lower(message), v.purchase)
    ensures !ContainsAny(v, v.Lower(message), v.purchase) ==> Language(v, v.Lower(Cut(v, message)))
  {
    var text, o := v.Lower(message), LatestStance(v, message).offset;
    OffsetInside(v, message);
    Lists(v);
    assert v.Lower(Cut(v, message)) == text[o..];
    LastRangeSpec(v, text, v.negative);
    LastRangeSpec(v, text, v.purchase);
    NothingAfter(v, text, v.negative, o);
    if ContainsAny(v, text, v.purchase) {
      StartsWithTerm(v, text, v.purchase, o);
    } else {
      NothingAfter(v, text, v.purchase, o);
      LanguageStays(v, text, o);
    }
  }

  lemma {:induction false} LanguageStays(v: Vocabulary, text: string, o: nat)
    requires LastLanguage(v, text) == o
    ensures o <= |text| && Language(v, text[o..])
  {
    if LastPay(text) == o {
      assert text[o..|text|] == text[o..];
      PaySlice(text, o, |text|, o);
      assert PayAt(text[o..], 0);
    } else {
      StartsWithTerm(v, text, v.language, o);
    }
  }

  lemma {:induction false} SilentAt(v: Vocabulary, messages: seq<string>, i: nat)
    requires Anchor(v, messages) < i < |messages|
    ensures Silent(v, messages[i])
  {
    SilentMessage(v, messages[i]);
  }

  lemma {:induction false} SilentAfter(v: Vocabulary, messages: seq<string>, from: nat)
    requires Anchor(v, messages) < from <= |messages|
    ensures forall m | m in messages[from..] :: Silent(v, m)
    decreases |messages| - from
  {
    if from < |messages| {
      SilentAt(v, messages, from);
      SilentAfter(v, messages, from + 1);
      assert messages[from..] == [messages[from]] + messages[from + 1..];
    }
  }

  lemma {:induction false} SilentLines(v: Vocabulary, lines: seq<string>)
    requires forall line | line in lines :: Silent(v, line)
    ensures !AnyLine(v, lines, v.negative) && !AnyLine(v, lines, v.purchase) && !LanguageLine(v, lines)
  {
  }

  /** Before silent lines only the first one counts. */
  lemma {:induction false} FirstLineDecides(v: Vocabulary, first: string, rest: seq<string>)
    requires forall line | line in rest :: Silent(v, line)
    ensures AnyLine(v, [first] + rest, v.negative) <==> ContainsAny(v, v.Lower(first), v.negative)
    ensures AnyLine(v, [first] + rest, v.purchase) <==> ContainsAny(v, v.Lower(first), v.purchase)
    ensures LanguageLine(v, [first] + rest) <==> Language(v, v.Lower(first))
  {
    SilentLines(v, rest);
    var lines := [first] + rest;
    assert lines[0] in lines;
    assert forall line | line in lines :: line == first || line in rest;
  }

  /** What the decided lines contain, by the stance of the anchor. */
  lemma {:induction false} DecidedLines(v: Vocabulary, messages: seq<string>)
    requires Sound(v)
    ensures var a, lines := Anchor(v, messages), Decided(v, messages);
            if a < 0 then !AnyLine(v, lines, v.negative) && !LanguageLine(v, lines)
            else if LatestStance(v, messages[a]).Negative? then AnyLine(v, lines, v.negative)
            else
              && !AnyLine(v, lines, v.negative)
              && (AnyLine(v, lines, v.purchase) <==> ContainsAny(v, v.Lower(messages[a]), v.purchase))
              && (!AnyLine(v, lines, v.purchase) ==> LanguageLine(v, lines))
  {
    var a := Anchor(v, messages);
    var rest := messages[a + 1..];
    SilentAfter(v, messages, a + 1);
    if a < 0 {
      assert rest == messages;
      SilentLines(v, messages);
    } else {
      var cut := Cut(v, messages[a]);
      assert Decided(v, messages) == [cut] + rest;
      FirstLineDecides(v, cut, rest);
      if LatestStance(v, messages[a]).Negative? {
        RefusalStays(v, messages[a]);
      } else {
        InterestStays(v, messages[a]);
      }
    }
  }

  /** The offer of a whole conversation. Hidden methods block it; without a stance,
      or with a refusal as the latest one, there is none; with interest as the
      latest one no refusal is left in the decided text, whatever was said
      before, and a purchase term in the anchor message is needed for more than
      a request for details. */
  lemma {:induction false} LatestStanceDecides(v: Vocabulary, hidden: bool, messages: seq<string>)
    requires Sound(v)
    ensures var a, text := Anchor(v, messages), JoinLines(Decided(v, messages));
            OfferFor(v, hidden, text) ==
            if hidden then Blocked
            else if a < 0 || LatestStance(v, messages[a]).Negative? then OfferNone
            else if !ContainsAny(v, v.Lower(messages[a]), v.purchase) then NeedsDetails
            else if !HasLanguage(v, text) then OfferNone
            else if !v.detail(v.Lower(Trim(text))) then NeedsDetails
            else Ready
    ensures var a, text := Anchor(v, messages), JoinLines(Decided(v, messages));
            a >= 0 && LatestStance(v, messages[a]).Interested? ==> !HasNegative(v, text)
  {
    var lines := Decided(v, messages);
    DecidedLines(v, messages);
    OfferByLines(v, hidden, lines);
    Lists(v);
    SeesTerms(v, lines, v.negative);
    SeesTerms(v, lines, v.language);
    SeesPay(v, lines);
  }
}
