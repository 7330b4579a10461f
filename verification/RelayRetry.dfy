/** The bounded retry of one model call, with its tool-choice fallbacks. The
    outcome of every attempt is given by a script, so each statement ranges over
    all provider behaviours. */
module RelayRetry {
  import opened ReadChain
  import opened Transcript

  /** What the loop reads off a response body. `valid` means it parses and has a choice. */
  datatype Body = Body(valid: bool, content: string, calls: seq<Call>,
                       nameRequired: bool, contextExceeded: bool, namedUnsupported: bool)

  const NO_BODY := Body(false, "", [], false, false, false)

  /** One attempt: whether the request was cancelled before it or in the pause
      after it, and otherwise a failure to send or a status and a body. */
  datatype Attempt = Attempt(cancelledBefore: bool, failed: bool, status: int, body: Body, cancelledAfter: bool)

  datatype Relayed = Relayed(status: int, body: Body, failed: bool, sent: seq<ToolChoice>)

  const MAX_RELAY_ATTEMPTS := 3
  const REQUEST_TIMEOUT := 408

  predicate IsSuccess(status: int) {
    200 <= status < 300
  }

  predicate Retryable(status: int) {
    status == 408 || status == 425 || status == 429 || 500 <= status <= 599
  }

  predicate Omittable(choice: ToolChoice) {
    choice.Auto? || choice.NoTools? || choice.Required?
  }

  method RelayWithRetry(choice: ToolChoice, script: seq<Attempt>) returns (r: Relayed)
    requires |script| == MAX_RELAY_ATTEMPTS
    ensures r == Relay(choice, false, false, script)
  {
    var current := choice;
    var responsesUsed, omitUsed := false, false;
    var sent: seq<ToolChoice> := [];
    var i := 0;
    while i < MAX_RELAY_ATTEMPTS
      invariant 0 <= i <= MAX_RELAY_ATTEMPTS
      invariant Relay(choice, false, false, script)
                == Prepend(sent, Relay(current, responsesUsed, omitUsed, script[i..]))
    {
      var a := script[i];
      assert script[i..][1..] == script[i + 1..];
      var rest := Relay(current, responsesUsed, omitUsed, script[i..]);
      PrependSnoc(sent, current, rest);
      if a.cancelledBefore {
        return Relayed(REQUEST_TIMEOUT, NO_BODY, true, sent);
      }
      sent := sent + [current];
      if a.failed {
        return Relayed(a.status, a.body, true, sent);
      }
      if IsSuccess(a.status) && (a.body.valid || i == MAX_RELAY_ATTEMPTS - 1) {
        return Relayed(a.status, a.body, false, sent);
      }
      if a.body.nameRequired && !responsesUsed && current.Named? {
        current := Named(current.tool, true);
        responsesUsed := true;
      } else if a.body.nameRequired && !omitUsed && Omittable(current) {
        current := Omitted;
        omitUsed := true;
      } else if !Retryable(a.status) || i == MAX_RELAY_ATTEMPTS - 1 {
        return Relayed(a.status, a.body, false, sent);
      } else if a.cancelledAfter {
        return Relayed(REQUEST_TIMEOUT, NO_BODY, true, sent);
      }
      i := i + 1;
    }
    // The loop's status and body shadow the outer ones, which were never set.
    r := Relayed(0, NO_BODY, false, sent);
  }

  function Prepend(sent: seq<ToolChoice>, r: Relayed): Relayed {
    r.(sent := sent + r.sent)
  }

  lemma {:induction false} PrependSnoc(sent: seq<ToolChoice>, choice: ToolChoice, r: Relayed)
    ensures r.sent == [] ==> Prepend(sent, r).sent == sent
    ensures r.sent != [] && r.sent[0] == choice ==>
              Prepend(sent, r) == Prepend(sent + [choice], r.(sent := r.sent[1..]))
  {
    if r.sent != [] && r.sent[0] == choice {
      assert sent + r.sent == sent + [choice] + r.sent[1..];
    }
  }

  /** The same retry, attempt by attempt. */
  function Relay(choice: ToolChoice, responsesUsed: bool, omitUsed: bool, script: seq<Attempt>): Relayed
    decreases |script|
  {
    if script == [] then Relayed(0, NO_BODY, false, [])
    else
      var a := script[0];
      if a.cancelledBefore then Relayed(REQUEST_TIMEOUT, NO_BODY, true, [])
      else if a.failed then Relayed(a.status, a.body, true, [choice])
      else if IsSuccess(a.status) && (a.body.valid || |script| == 1) then Relayed(a.status, a.body, false, [choice])
      else if a.body.nameRequired && !responsesUsed && choice.Named? then
        Prepend([choice], Relay(Named(choice.tool, true), true, omitUsed, script[1..]))
      else if a.body.nameRequired && !omitUsed && Omittable(choice) then
        Prepend([choice], Relay(Omitted, responsesUsed, true, script[1..]))
      else if !Retryable(a.status) || |script| == 1 then Relayed(a.status, a.body, false, [choice])
      else if a.cancelledAfter then Relayed(REQUEST_TIMEOUT, NO_BODY, true, [choice])
      else Prepend([choice], Relay(choice, responsesUsed, omitUsed, script[1..]))
  }

  // ---------- what retries may do to the tool choice ----------

  /** One step of adaptation: the same choice, the same name in another shape, or
      a plain word dropped. */
  predicate Adapts(a: ToolChoice, b: ToolChoice) {
    b == a || (a.Named? && b == Named(a.tool, true)) || (Omittable(a) && b == Omitted)
  }

  /** Every attempt's choice descends from the first; a named choice keeps its
      name on every attempt and only auto, none and required are ever dropped. */
  lemma {:induction false} ChoicesDescend(
    choice: ToolChoice, responsesUsed: bool, omitUsed: bool, script: seq<Attempt>)
    ensures var sent := Relay(choice, responsesUsed, omitUsed, script).sent;
            |sent| <= |script| && forall i :: 0 <= i < |sent| ==> Adapts(choice, sent[i])
    ensures var sent := Relay(choice, responsesUsed, omitUsed, script).sent;
            sent != [] ==> sent[0] == choice
    decreases |script|
  {
    if script != [] {
      ChoicesDescend(choice, responsesUsed, omitUsed, script[1..]);
      ChoicesDescend(Omitted, responsesUsed, true, script[1..]);
      if choice.Named? {
        ChoicesDescend(Named(choice.tool, true), true, omitUsed, script[1..]);
      }
    }
  }

  // ---------- the two surprises ----------

  predicate Divertible(choice: ToolChoice) {
    (choice.Named? && !choice.responsesShape) || Omittable(choice)
  }

  /** An answered attempt that is repeated after the pause, with the same choice. */
  predicate PassedOn(a: Attempt) {
    !a.cancelledBefore && !a.failed && Retryable(a.status) && !a.body.nameRequired && !a.cancelledAfter
  }

  /** An answered attempt that asks for another choice. */
  predicate Diverted(a: Attempt) {
    !a.cancelledBefore && !a.failed && !IsSuccess(a.status) && a.body.nameRequired
  }

  /** An answer always has a status. */
  predicate HaveStatus(script: seq<Attempt>) {
    forall a | a in script :: a.failed || a.status != 0
  }

  predicate NothingToReport(r: Relayed) {
    !r.failed && r.status == 0
  }

  lemma {:induction false} NoFallbackLeft(
    choice: ToolChoice, responsesUsed: bool, omitUsed: bool, script: seq<Attempt>)
    requires script != [] && HaveStatus(script)
    requires (choice.Named? ==> responsesUsed) && !Omittable(choice)
    ensures !NothingToReport(Relay(choice, responsesUsed, omitUsed, script))
    decreases |script|
  {
    assert script[0] in script;
    if |script| > 1 {
      NoFallbackLeft(choice, responsesUsed, omitUsed, script[1..]);
    }
  }

  /** The retry reports neither a failure nor an answer exactly when every attempt but
      the last is passed on and the last one asks for a fallback that was still free,
      for which no attempt is left. */
  lemma {:induction false} FallbackOnLastAttempt(choice: ToolChoice, script: seq<Attempt>)
    requires script != [] && HaveStatus(script)
    requires choice.Named? ==> !choice.responsesShape
    ensures NothingToReport(Relay(choice, false, false, script)) <==>
            && Divertible(choice)
            && (forall i :: 0 <= i < |script| - 1 ==> PassedOn(script[i]))
            && Diverted(script[|script| - 1])
    decreases |script|
  {
    assert script[0] in script;
    if |script| > 1 {
      var tail := script[1..];
      assert tail[|tail| - 1] == script[|script| - 1];
      FallbackOnLastAttempt(choice, tail);
      PassedOnTail(script);
      if script[0].body.nameRequired && Divertible(choice) {
        NoFallbackLeft(if choice.Named? then Named(choice.tool, true) else Omitted,
                       choice.Named?, !choice.Named?, tail);
      }
    }
  }

  lemma {:induction false} PassedOnTail(script: seq<Attempt>)
    requires |script| > 1
    ensures (forall i :: 0 <= i < |script| - 1 ==> PassedOn(script[i])) <==>
            PassedOn(script[0]) && forall i :: 0 <= i < |script[1..]| - 1 ==> PassedOn(script[1..][i])
  {
    var tail := script[1..];
    if PassedOn(script[0]) && forall i :: 0 <= i < |tail| - 1 ==> PassedOn(tail[i]) {
      forall i | 0 <= i < |script| - 1 ensures PassedOn(script[i]) {
        if i > 0 {
          assert tail[i - 1] == script[i];
        }
      }
    }
  }

  /** A malformed success is handed back at once, not retried, unless its body
      asks for a tool-choice fallback that is still available. */
  lemma {:induction false} MalformedSuccessReturned(choice: ToolChoice, script: seq<Attempt>)
    requires |script| > 1 && !script[0].cancelledBefore && !script[0].failed
    requires IsSuccess(script[0].status) && !script[0].body.valid
    requires choice.Named? ==> !choice.responsesShape
    ensures Relay(choice, false, false, script) == Relayed(script[0].status, script[0].body, false, [choice])
            <==> !(script[0].body.nameRequired && Divertible(choice))
  {
    if script[0].body.nameRequired && Divertible(choice) {
      var next := if choice.Named? then Named(choice.tool, true) else Omitted;
      ChoicesDescend(next, choice.Named?, !choice.Named?, script[1..]);
    }
  }
}
