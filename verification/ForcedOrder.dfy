/** The order promise of the read chain over whole runs: no tool of the chain is
    forced while an earlier one that was called has not succeeded. It holds in every
    run of some requests and is broken by some run of all others. */
module ForcedOrder {
  import opened ToolPolicy
  import opened ReadChain
  import opened Transcript
  import opened AgentCalls
  import opened RelayRetry
  import opened AgentLoop
  import opened AgentRuns
  import Compaction

  /** The turn at k, if it forces a tool of the chain, forces it in order. */
  ghost predicate ForcesInOrder(cfg: Config, log: seq<Event>, k: nat)
    requires k < |log|
  {
    var e := log[k];
    e.Turn? && e.toolsOffered && e.choice.Named? && e.choice.tool in cfg.Chain() ==>
      NoEarlierFailure(cfg.Chain(), e.choice.tool, Called(log[..k]), Succeeded(log[..k]))
  }

  ghost predicate KeepsOrder(cfg: Config, log: seq<Event>) {
    forall k :: 0 <= k < |log| ==> ForcesInOrder(cfg, log, k)
  }

  function Activity(cfg: Config): seq<ToolName> {
    Pick(ActivityLinks(cfg.c, cfg.drawing))
  }

  function LeadOf(cfg: Config): seq<ToolName> {
    Lead(cfg.c, cfg.drawing)
  }

  // ---------- where the promise holds ----------

  /** Until the leading tool has been called every turn that offers tools names it, or
      the title. */
  lemma {:induction false} FirstIsNamed(cfg: Config, before: seq<Event>, e: Event)
    requires LeadOf(cfg) != [] && LeadOf(cfg)[0] !in Called(before)
    requires e.Turn? && e.toolsOffered && TurnFollows(cfg, before, e)
    ensures e.choice == Force(if e.title then SetTitle else LeadOf(cfg)[0])
  {
    var c := cfg.c.(titleNeeded := e.title);
    TitleChangesNoLead(cfg.c, cfg.drawing, e.title);
    if e.title {
      TitleIsForced(c, Called(before), Succeeded(before), cfg.drawing);
    } else {
      LeadIsForced(c, Called(before), Succeeded(before), cfg.drawing);
    }
  }

  lemma {:induction false} LeadForces(cfg: Config)
    requires LeadOf(cfg) != []
    ensures cfg.Forced()
  {
    ActivityPair(cfg.c, cfg.drawing);
  }

  /** What can be called before the leading tool is the title and no other tool. */
  lemma {:induction false} NothingBeforeFirst(cfg: Config, log: seq<Event>)
    requires Follows(cfg, log) && LeadOf(cfg) != [] && LeadOf(cfg)[0] !in Called(log)
    ensures Called(log) <= {SetTitle}
    decreases |log|
  {
    if log != [] {
      var before, e := log[..|log| - 1], log[|log| - 1];
      NothingBeforeFirst(cfg, before);
      if !e.Turn? {
        var tool := LastNamed(cfg, before);
        LeadForces(cfg);
        WorkCalls(e, tool);
      }
    }
  }

  /** A last turn with tools names the title or the leading tool. */
  lemma {:induction false} LastNamed(cfg: Config, log: seq<Event>) returns (tool: ToolName)
    requires Follows(cfg, log) && LeadOf(cfg) != [] && LeadOf(cfg)[0] !in Called(log)
    requires log != [] && log[|log| - 1].Turn? && log[|log| - 1].toolsOffered
    ensures log[|log| - 1].choice == Force(tool) && tool in {SetTitle, LeadOf(cfg)[0]}
  {
    var before, e := log[..|log| - 1], log[|log| - 1];
    FollowsAt(cfg, log, |log| - 1);
    FirstIsNamed(cfg, before, e);
    tool := e.choice.tool;
  }

  lemma {:induction false} WorkCalls(e: Event, tool: ToolName)
    requires e.Round? ==> OnlyTool(e.receipts, tool)
    requires e.ServerRead? ==> e.call.tool == tool
    ensures EventCalled(e) <= {tool}
  {
  }

  /** A request without overtaken tools keeps the promise at every turn of every run. */
  lemma {:induction false} TurnKeepsOrder(cfg: Config, log: seq<Event>, k: nat)
    requires Follows(cfg, log) && k < |log| && !Overtakes(cfg.c, cfg.drawing)
    ensures ForcesInOrder(cfg, log, k)
  {
    var e, before := log[k], log[..k];
    if e.Turn? && e.toolsOffered && e.choice.Named? && e.choice.tool in cfg.Chain() {
      FollowsAt(cfg, log, k);
      ChainAllowed(cfg.c, cfg.drawing, e.choice.tool);
      if e.title {
        TitleIsForced(cfg.c.(titleNeeded := true), Called(before), Succeeded(before), cfg.drawing);
      }
      if LeadOf(cfg) != [] && LeadOf(cfg)[0] !in Called(before) {
        NothingBeforeFirst(cfg, before);
        NoTitleInChain(cfg, Called(before));
      }
      UntitledKeepsOrder(cfg, Called(before), Succeeded(before), e.choice);
    }
  }

  lemma {:induction false} NoTitleInChain(cfg: Config, called: set<ToolName>)
    requires called <= {SetTitle}
    ensures forall x | x in cfg.Chain() :: x !in called
  {
    if SetTitle in cfg.Chain() {
      ChainAllowed(cfg.c, cfg.drawing, SetTitle);
    }
  }

  lemma {:induction false} UntitledKeepsOrder(
    cfg: Config, called: set<ToolName>, succeeded: set<ToolName>, choice: ToolChoice)
    requires !Overtakes(cfg.c, cfg.drawing)
    requires choice == StepChoice(cfg.c.(titleNeeded := false), called, succeeded, cfg.drawing)
    requires choice.Named? && choice.tool in cfg.Chain()
    requires LeadOf(cfg) == [] || LeadOf(cfg)[0] in called || forall x | x in cfg.Chain() :: x !in called
    ensures NoEarlierFailure(cfg.Chain(), choice.tool, called, succeeded)
  {
    var c := cfg.c.(titleNeeded := false);
    NamedPlainly(c, called, succeeded, cfg.drawing);
    TitleChangesNoChain(cfg.c, cfg.drawing, false);
    TitleChangesNoLead(cfg.c, cfg.drawing, false);
    TitleChangesNoOvertaking(cfg.c, cfg.drawing, false);
    ForcedKeepsOrder(c, cfg.drawing, called, succeeded, choice.tool);
  }

  /** So every run of such a request keeps the promise. */
  lemma {:induction false} EveryRunKeepsOrder(cfg: Config, messages: seq<Message>, inputs: seq<Input>)
    requires WellFormed(messages) && !Overtakes(cfg.c, cfg.drawing)
    ensures KeepsOrder(cfg, AgentRun(cfg, messages, inputs).0)
  {
    var log := AgentRun(cfg, messages, inputs).0;
    EveryRunIsKept(cfg, messages, inputs);
    forall k | 0 <= k < |log| ensures ForcesInOrder(cfg, log, k) {
      TurnKeepsOrder(cfg, log, k);
    }
  }

  // ---------- where some run breaks it ----------

  predicate Fits(cfg: Config, ms: seq<Message>) {
    Compaction.Bytes(cfg.codec, ms) <= CONTEXT_TARGET_BYTES
  }

  const NO_ATTEMPT := Attempt(true, false, 0, NO_BODY, false)

  function Replying(attempt: Attempt, interrupted: bool, tools: seq<ToolRun>): Input {
    Input(false, attempt, NO_ATTEMPT, NO_ATTEMPT, interrupted, false, true, ToolAt([], 0), tools)
  }

  function Calling(calls: seq<Call>): Body {
    Body(true, "", calls, false, false, false)
  }

  function Ran(ok: bool): ToolRun {
    ToolRun(false, ok, false, false, false, "")
  }

  /** A provider that makes these calls. */
  function CallInput(calls: seq<Call>, tools: seq<ToolRun>): Input {
    Replying(Attempt(false, false, 200, Calling(calls), false), false, tools)
  }

  /** A provider that cannot be told to call a tool. */
  const UNSUPPORTED := Replying(Attempt(false, false, 404, Body(false, "", [], false, false, true), false), false, [])

  /** A request after which the run is interrupted. */
  const ASK_ONLY := Replying(NO_ATTEMPT, true, [])

  function CallOf(tool: ToolName): Call {
    Call("", "", tool, "")
  }

  /** The messages of a round whose tools return nothing. */
  function Exchange(step: nat, used: set<string>, calls: seq<Call>): seq<Message> {
    var made := Normalized(calls, step, used);
    [Message(Assistant, "", "", made, "")] + Results(made)
  }

  function Results(made: seq<Call>): seq<Message> {
    seq(|made|, i requires 0 <= i < |made| => ToolResult(made[i], ""))
  }

  function UsedAfter(step: nat, used: set<string>, calls: seq<Call>): set<string> {
    used + IdSet(Normalized(calls, step, used))
  }

  /** The conversation after one round, and after two. */
  function SecondRequest(ms: seq<Message>, used: set<string>, step: nat, first: ToolName): seq<Message> {
    ms + Exchange(step, used, [CallOf(first)])
  }

  function ThirdRequest(ms: seq<Message>, used: set<string>, step: nat, first: ToolName, x: ToolName): seq<Message> {
    SecondRequest(ms, used, step, first)
    + Exchange(step + 1, UsedAfter(step, used, [CallOf(first)]), [CallOf(first), CallOf(x)])
  }

  predicate FitsThrice(cfg: Config, ms: seq<Message>, used: set<string>, step: nat, first: ToolName, x: ToolName) {
    Fits(cfg, ms) && Fits(cfg, SecondRequest(ms, used, step, first))
    && Fits(cfg, ThirdRequest(ms, used, step, first, x))
  }

  /** Two rounds of empty calls leave the conversation within the target. */
  predicate Roomy(cfg: Config, messages: seq<Message>) {
    Activity(cfg) != [] ==>
      forall x | x in cfg.Chain() ::
        FitsThrice(cfg, messages, IdsIn(messages), Extra(cfg.c.titleNeeded), Activity(cfg)[0], x)
  }

  lemma {:induction false} RepliedAtOnce(cfg: Config, run: Run, input: Input)
    requires !input.first.cancelledBefore && !input.first.failed && !input.first.body.nameRequired
    requires (IsSuccess(input.first.status) && input.first.body.valid)
             || !(IsSuccess(input.first.status) || Retryable(input.first.status))
    ensures RelayOf(cfg, run, input) == Relayed(input.first.status, input.first.body, false, [Choice(cfg, run)])
  {
    var script := [input.first, input.second, input.third];
    assert script[0] == input.first;
  }

  /** A conversation that fits is sent as it is. */
  lemma {:induction false} SentAsItIs(cfg: Config, run: Run, input: Input)
    requires Fits(cfg, run.messages) && !input.interruptedBefore
    ensures PassOf(cfg, run, input)
            == ReplyOf(cfg, AskedRun(cfg, run, input), Choice(cfg, run), RelayOf(cfg, run, input), input)
  {
    assert run.(messages := run.messages) == run;
  }

  /** Calls that fit the choice are executed. */
  lemma {:induction false} CallsAreMade(cfg: Config, run: Run, calls: seq<Call>, tools: seq<ToolRun>)
    requires Fits(cfg, run.messages) && run.step < cfg.MaxSteps() && Offered(cfg, run)
    requires 0 < |calls| <= CALLS_PER_RESPONSE
    requires Choice(cfg, run).Named? ==> CallsOnly(calls, Choice(cfg, run).tool)
    ensures Makes(cfg, run, CallInput(calls, tools), calls)
  {
    var input := CallInput(calls, tools);
    SentAsItIs(cfg, run, input);
    RepliedAtOnce(cfg, run, input);
    AcceptedCalls(cfg, AskedRun(cfg, run, input), Choice(cfg, run), calls, input);
  }

  lemma {:induction false} AcceptedCalls(cfg: Config, run: Run, choice: ToolChoice, calls: seq<Call>, input: Input)
    requires Offered(cfg, run) && 0 < |calls| <= CALLS_PER_RESPONSE && (choice.Named? ==> CallsOnly(calls, choice.tool))
    ensures RepliedOf(cfg, run, choice, Calling(calls), input) == RoundOf(cfg, run, Calling(calls), input)
  {
  }

  /** The title is given up, nothing has run. */
  lemma {:induction false} TitleIsSkipped(cfg: Config, run: Run)
    requires Fits(cfg, run.messages) && Choice(cfg, run) == Force(SetTitle)
    ensures PassOf(cfg, run, UNSUPPORTED) == Continue(Skip(AskedRun(cfg, run, UNSUPPORTED)))
  {
    SentAsItIs(cfg, run, UNSUPPORTED);
    RepliedAtOnce(cfg, run, UNSUPPORTED);
    TitleIsRefused(cfg, AskedRun(cfg, run, UNSUPPORTED), RelayOf(cfg, run, UNSUPPORTED));
  }

  lemma {:induction false} TitleIsChosen(cfg: Config, run: Run)
    requires Inv(cfg, run, 0) && run.step < cfg.MaxSteps() && run.title
    ensures Choice(cfg, run) == Force(SetTitle)
  {
    ChoiceForces(cfg, run);
  }

  lemma {:induction false} TitleIsRefused(cfg: Config, asked: Run, relayed: Relayed)
    requires relayed.status == 404 && relayed.body.namedUnsupported
    ensures RefusedOf(cfg, asked, Force(SetTitle), relayed, UNSUPPORTED) == Continue(Skip(asked))
  {
  }

  /** A state from which nothing was executed but the given tools. */
  ghost predicate At(cfg: Config, run: Run, steps: nat, called: set<ToolName>, succeeded: set<ToolName>) {
    && Inv(cfg, run, 0) && !run.title && !run.finalOnly
    && run.step == steps + Extra(cfg.c.titleNeeded) && run.called == called && run.succeeded == succeeded
  }

  lemma {:induction false} BreaksOff(cfg: Config, run: Run)
    requires Fits(cfg, run.messages) && run.step < cfg.MaxSteps()
    ensures PassOf(cfg, run, ASK_ONLY) == Stop(AskedRun(cfg, run, ASK_ONLY).log, Interrupted)
  {
    SentAsItIs(cfg, run, ASK_ONLY);
  }

  lemma {:induction false} OneStep(cfg: Config, run: Run, input: Input, rest: seq<Input>)
    requires run.step < cfg.MaxSteps()
    ensures RunFrom(cfg, run, [input] + rest)
            == match PassOf(cfg, run, input)
               case Stop(log, outcome) => (log, outcome)
               case Continue(next) => RunFrom(cfg, next, rest)
  {
    var inputs := [input] + rest;
    assert inputs[0] == input && inputs[1..] == rest;
  }

  /** A run may begin with its first task: the title, if there is one, is given up. */
  lemma {:induction false} Opening(cfg: Config, messages: seq<Message>) returns (inputs: seq<Input>, run: Run)
    requires Fits(cfg, messages) && WellFormed(messages) && cfg.MaxSteps() >= 4 + Extra(cfg.c.titleNeeded)
    ensures At(cfg, run, 0, {}, {}) && History(cfg, run.log) == []
    ensures run.messages == messages && run.used == IdsIn(messages)
    ensures forall rest :: AgentRun(cfg, messages, inputs + rest) == RunFrom(cfg, run, rest)
  {
    StartKeepsInv(cfg, messages);
    var start := Start(cfg, messages);
    if start.title {
      inputs, run := [UNSUPPORTED], Skip(AskedRun(cfg, start, UNSUPPORTED));
      TitleIsChosen(cfg, start);
      TitleIsSkipped(cfg, start);
      PassKeeps(cfg, start, UNSUPPORTED);
      HistorySnoc(cfg, start.log, AskedRun(cfg, start, UNSUPPORTED).log[0]);
      forall rest ensures AgentRun(cfg, messages, inputs + rest) == RunFrom(cfg, run, rest) {
        OneStep(cfg, start, UNSUPPORTED, rest);
      }
    } else {
      inputs, run := [], start;
      forall rest: seq<Input> ensures AgentRun(cfg, messages, inputs + rest) == RunFrom(cfg, run, rest) {
        assert [] + rest == rest;
      }
    }
  }

  // ---------- the calls of that run ----------

  lemma {:induction false} BatchOfOne(cfg: Config, history: seq<Execution>, call: Call, ok: bool)
    requires VerdictOf(cfg, history, call, 0, Ran(ok)) == Executed(ok, false)
    ensures BatchOf(cfg, history, [call], [Ran(ok)])
            == Batch([Receipt(call, Executed(ok, false))], [ToolResult(call, "")], false)
  {
    var r := Receipt(call, Executed(ok, false));
    assert history + [] == history;
    assert [] + [r] == [r] && [] + [ToolResult(call, "")] == [ToolResult(call, "")];
    assert ToolAt([Ran(ok)], 0) == Ran(ok);
    assert BatchFrom(cfg, history, [call], [Ran(ok)], Batch([r], [ToolResult(call, "")], false)).receipts == [r];
  }

  lemma {:induction false} BatchOfTwo(cfg: Config, history: seq<Execution>, a: Call, b: Call)
    requires VerdictOf(cfg, history, a, 0, Ran(true)) == Executed(true, false)
    requires VerdictOf(cfg, history + OwnExecution(cfg, Receipt(a, Executed(true, false))), b, 1, Ran(false))
             == Executed(false, false)
    ensures var batch := BatchOf(cfg, history, [a, b], [Ran(true), Ran(false)]);
            && !batch.stop && batch.receipts == [Receipt(a, Executed(true, false)), Receipt(b, Executed(false, false))]
            && batch.results == [ToolResult(a, ""), ToolResult(b, "")]
  {
    var calls, tools := [a, b], [Ran(true), Ran(false)];
    var first, second := Receipt(a, Executed(true, false)), Receipt(b, Executed(false, false));
    assert history + [] == history && [] + [first] == [first] && [first] + [second] == [first, second];
    assert ToolAt(tools, 0) == Ran(true) && ToolAt(tools, 1) == Ran(false);
    ReceiptsSnoc(cfg, [], first);
    assert [] + OwnExecution(cfg, first) == OwnExecution(cfg, first);
    var one := Batch([first], [] + [ToolResult(a, "")], false);
    assert BatchOf(cfg, history, calls, tools) == BatchFrom(cfg, history, calls, tools, one);
    var two := Batch([first, second], one.results + [ToolResult(b, "")], false);
    assert BatchFrom(cfg, history, calls, tools, one) == BatchFrom(cfg, history, calls, tools, two);
  }

  lemma {:induction false} TwoReceipts(cfg: Config, a: Call, b: Call)
    ensures var receipts := [Receipt(a, Executed(true, false)), Receipt(b, Executed(false, false))];
            && RoundCalled(receipts) == {a.tool, b.tool} && RoundSucceeded(receipts) == {a.tool}
            && ExecutedCount(receipts) == 2
  {
    var first, second := Receipt(a, Executed(true, false)), Receipt(b, Executed(false, false));
    assert [first] + [second] == [first, second];
    ReceiptsSnoc(cfg, [first], second);
    LoneReceipt(cfg, first);
    assert first in [first, second] && second in [first, second];
  }

  lemma {:induction false} FirstCallRuns(cfg: Config, history: seq<Execution>, call: Call, executed: nat, ok: bool)
    requires !IsAdministratorTool(call.tool) && executed < CALLS_PER_ROUND
    requires forall e | e in history :: e.key.0 != call.tool
    ensures VerdictOf(cfg, history, call, executed, Ran(ok)) == Executed(ok, false)
  {
    FirstUseAllowed(cfg, history, call);
  }

  /** A call that failed once may be repeated. */
  lemma {:induction false} SecondCallRuns(cfg: Config, call: Call)
    requires !IsAdministratorTool(call.tool)
    ensures var history := [Execution(cfg.KeyOf(call), cfg.ReadsOnly(call), false)];
            VerdictOf(cfg, history, call, 0, Ran(true)) == Executed(true, false)
  {
    var e := Execution(cfg.KeyOf(call), cfg.ReadsOnly(call), false);
    assert [e][..0] == [];
    assert After([e]) == Admit(Guard(map[], 0), e.key, e.readOnly);
  }

  lemma {:induction false} CallsKeepTools(calls: seq<Call>, step: nat, used: set<string>)
    ensures var r := Normalized(calls, step, used);
            |r| == |calls| && forall i :: 0 <= i < |calls| ==> r[i].tool == calls[i].tool && r[i].args == calls[i].args
  {
    NormalizedIsRepaired(calls, step, used);
  }

  /** The pass makes these calls. */
  ghost predicate Makes(cfg: Config, run: Run, input: Input, calls: seq<Call>) {
    PassOf(cfg, run, input) == RoundOf(cfg, AskedRun(cfg, run, input), Calling(calls), input)
  }

  lemma {:induction false} Proceeds(cfg: Config, run: Run, input: Input, calls: seq<Call>, next: Run)
    requires Inv(cfg, run, 0) && run.step < cfg.MaxSteps() && Makes(cfg, run, input, calls)
    requires RoundOf(cfg, AskedRun(cfg, run, input), Calling(calls), input) == Continue(next)
    ensures PassOf(cfg, run, input) == Continue(next) && Inv(cfg, next, 0)
  {
    PassKeeps(cfg, run, input);
  }

  /** One round further, the conversation holds its calls and their results. */
  predicate Exchanged(run: Run, next: Run, calls: seq<Call>) {
    && next.messages == run.messages + Exchange(run.step, run.used, calls)
    && next.used == UsedAfter(run.step, run.used, calls)
  }

  lemma {:induction false} ExchangeAdded(run: Run, calls: seq<Call>)
    ensures var head := HeadOf(run, Calling(calls));
            run.messages + [head] + Results(head.calls) == run.messages + Exchange(run.step, run.used, calls)
  {
  }

  function Once(cfg: Config, tool: ToolName): seq<Execution> {
    [Execution((tool, cfg.canonical("")), cfg.readOnly(tool, ""), false)]
  }

  lemma {:induction false} FailingBatch(cfg: Config, run: Run, tool: ToolName) returns (receipts: seq<Receipt>)
    requires History(cfg, run.log) == [] && !IsAdministratorTool(tool)
    ensures var batch := BatchOf(cfg, History(cfg, run.log), HeadOf(run, Calling([CallOf(tool)])).calls, [Ran(false)]);
            !batch.stop && batch.receipts == receipts
            && batch.results == Results(HeadOf(run, Calling([CallOf(tool)])).calls)
    ensures RoundCalled(receipts) == {tool} && RoundSucceeded(receipts) == {} && ExecutedCount(receipts) == 1
    ensures Executions(cfg, receipts) == Once(cfg, tool)
  {
    var calls := HeadOf(run, Calling([CallOf(tool)])).calls;
    CallsKeepTools([CallOf(tool)], run.step, run.used);
    assert calls == [calls[0]];
    FirstCallRuns(cfg, [], calls[0], 0, false);
    BatchOfOne(cfg, [], calls[0], false);
    var r := Receipt(calls[0], Executed(false, false));
    LoneReceipt(cfg, r);
    ReceiptsSnoc(cfg, [], r);
    assert [] + [r] == [r] && [] + OwnExecution(cfg, r) == OwnExecution(cfg, r);
    receipts := [r];
  }

  /** The first activity tool is forced, called, and fails. */
  lemma {:induction false} FirstFails(cfg: Config, run: Run, tool: ToolName) returns (next: Run)
    requires Fits(cfg, run.messages) && At(cfg, run, 0, {}, {}) && History(cfg, run.log) == []
    requires run.step < cfg.MaxSteps() && Offered(cfg, run) && Choice(cfg, run) == Force(tool)
    requires !IsAdministratorTool(tool)
    ensures PassOf(cfg, run, CallInput([CallOf(tool)], [Ran(false)])) == Continue(next)
    ensures At(cfg, next, 1, {tool}, {}) && History(cfg, next.log) == Once(cfg, tool)
    ensures Exchanged(run, next, [CallOf(tool)])
  {
    var input := CallInput([CallOf(tool)], [Ran(false)]);
    CallsAreMade(cfg, run, [CallOf(tool)], [Ran(false)]);
    AskedHistory(cfg, run, input);
    next := FailingRound(cfg, AskedRun(cfg, run, input), input, tool);
    Proceeds(cfg, run, input, [CallOf(tool)], next);
  }

  lemma {:induction false} FailingRound(cfg: Config, asked: Run, input: Input, tool: ToolName) returns (next: Run)
    requires asked.called == {} && asked.succeeded == {} && History(cfg, asked.log) == [] && !asked.title
    requires input.tools == [Ran(false)] && !IsAdministratorTool(tool)
    ensures RoundOf(cfg, asked, Calling([CallOf(tool)]), input) == Continue(next)
    ensures next.called == {tool} && next.succeeded == {} && next.step == asked.step + 1 && !next.finalOnly
    ensures !next.title
    ensures History(cfg, next.log) == Once(cfg, tool) && Exchanged(asked, next, [CallOf(tool)])
  {
    var receipts := FailingBatch(cfg, asked, tool);
    HistorySnoc(cfg, asked.log, Round(asked.step, receipts));
    assert [] + Once(cfg, tool) == Once(cfg, tool);
    ExchangeAdded(asked, [CallOf(tool)]);
    next := RoundOf(cfg, asked, Calling([CallOf(tool)]), input).run;
  }

  lemma {:induction false} AskedHistory(cfg: Config, run: Run, input: Input)
    ensures History(cfg, AskedRun(cfg, run, input).log) == History(cfg, run.log)
  {
    HistorySnoc(cfg, run.log, AskedRun(cfg, run, input).log[|run.log|]);
  }

  lemma {:induction false} MixedBatch(cfg: Config, run: Run, tool: ToolName, x: ToolName)
    returns (receipts: seq<Receipt>)
    requires History(cfg, run.log) == Once(cfg, tool) && x != tool && !IsAdministratorTool(tool)
    requires !IsAdministratorTool(x)
    ensures var made, tools := [CallOf(tool), CallOf(x)], [Ran(true), Ran(false)];
            var batch := BatchOf(cfg, History(cfg, run.log), HeadOf(run, Calling(made)).calls, tools);
            !batch.stop && batch.receipts == receipts && batch.results == Results(HeadOf(run, Calling(made)).calls)
    ensures RoundCalled(receipts) == {tool, x} && RoundSucceeded(receipts) == {tool} && ExecutedCount(receipts) == 2
  {
    var made := [CallOf(tool), CallOf(x)];
    var calls := HeadOf(run, Calling(made)).calls;
    CallsKeepTools(made, run.step, run.used);
    assert calls == [calls[0], calls[1]] && Results(calls) == [ToolResult(calls[0], ""), ToolResult(calls[1], "")];
    receipts := TwoCalls(cfg, calls[0], calls[1]);
  }

  lemma {:induction false} TwoCalls(cfg: Config, a: Call, b: Call) returns (receipts: seq<Receipt>)
    requires a.args == "" && a.tool != b.tool && !IsAdministratorTool(a.tool) && !IsAdministratorTool(b.tool)
    ensures BatchOf(cfg, Once(cfg, a.tool), [a, b], [Ran(true), Ran(false)])
            == Batch(receipts, [ToolResult(a, ""), ToolResult(b, "")], false)
    ensures RoundCalled(receipts) == {a.tool, b.tool} && RoundSucceeded(receipts) == {a.tool}
    ensures ExecutedCount(receipts) == 2
  {
    SecondCallRuns(cfg, a);
    FirstCallRuns(cfg, Once(cfg, a.tool) + OwnExecution(cfg, Receipt(a, Executed(true, false))), b, 1, false);
    BatchOfTwo(cfg, Once(cfg, a.tool), a, b);
    TwoReceipts(cfg, a, b);
    receipts := [Receipt(a, Executed(true, false)), Receipt(b, Executed(false, false))];
  }

  /** Told to use no tools, the provider repeats the first tool, with success, and
      calls one that fails. */
  lemma {:induction false} SecondRound(cfg: Config, run: Run, tool: ToolName, x: ToolName) returns (next: Run)
    requires Fits(cfg, run.messages) && At(cfg, run, 1, {tool}, {}) && History(cfg, run.log) == Once(cfg, tool)
    requires x != tool
    requires run.step < cfg.MaxSteps() && Offered(cfg, run) && !Choice(cfg, run).Named?
    requires !IsAdministratorTool(tool) && !IsAdministratorTool(x)
    ensures PassOf(cfg, run, CallInput([CallOf(tool), CallOf(x)], [Ran(true), Ran(false)])) == Continue(next)
    ensures At(cfg, next, 2, {tool, x}, {tool}) && Exchanged(run, next, [CallOf(tool), CallOf(x)])
  {
    var made, tools := [CallOf(tool), CallOf(x)], [Ran(true), Ran(false)];
    var input := CallInput(made, tools);
    CallsAreMade(cfg, run, made, tools);
    AskedHistory(cfg, run, input);
    next := MixedRound(cfg, AskedRun(cfg, run, input), input, tool, x);
    Proceeds(cfg, run, input, made, next);
  }

  lemma {:induction false} MixedRound(cfg: Config, asked: Run, input: Input, tool: ToolName, x: ToolName)
    returns (next: Run)
    requires asked.called == {tool} && asked.succeeded == {} && History(cfg, asked.log) == Once(cfg, tool)
    requires !asked.title
    requires x != tool && !IsAdministratorTool(tool) && !IsAdministratorTool(x)
    requires input.tools == [Ran(true), Ran(false)]
    ensures RoundOf(cfg, asked, Calling([CallOf(tool), CallOf(x)]), input) == Continue(next)
    ensures next.called == {tool, x} && next.succeeded == {tool} && next.step == asked.step + 1
    ensures !next.finalOnly && !next.title && Exchanged(asked, next, [CallOf(tool), CallOf(x)])
  {
    var receipts := MixedBatch(cfg, asked, tool, x);
    ExchangeAdded(asked, [CallOf(tool), CallOf(x)]);
    next := RoundOf(cfg, asked, Calling([CallOf(tool), CallOf(x)]), input).run;
    assert {tool} + {tool, x} == {tool, x};
  }

  /** The choices of that run: the first activity tool, no tool, the second one. */
  lemma {:induction false} ChoicesAlong(c: UserContext, drawing: bool, first: ToolName, second: ToolName, x: ToolName)
    requires ActivityFirst(c, drawing) && !c.titleNeeded && x != second && first != second
    requires var activity := Pick(ActivityLinks(c, drawing));
             |activity| >= 2 && activity[0] == first && activity[1] == second
    ensures StepChoice(c, {}, {}, drawing) == Force(first)
    ensures StepChoice(c, {first}, {}, drawing) == NoTools
    ensures StepChoice(c, {first, x}, {first}, drawing) == Force(second)
  {
    var activity := Pick(ActivityLinks(c, drawing));
    assert activity[1..][0] == second;
    assert NextIn(activity[1..], {first, x}, {first}) == Read(second);
    assert NextIn(activity, {first, x}, {first}) == Read(second);
  }

  /** A tool x that stands before the second activity tool and is none of the two:
      the choices let it fail before the second one is forced. */
  ghost predicate Trap(cfg: Config, first: ToolName, second: ToolName, x: ToolName) {
    var c := cfg.c.(titleNeeded := false);
    && first != second && x != first && x != second && Before(cfg.Chain(), x, second)
    && !IsAdministratorTool(first) && !IsAdministratorTool(x)
    && cfg.Agent() && cfg.MaxSteps() >= 4 + Extra(cfg.c.titleNeeded)
    && StepChoice(c, {}, {}, cfg.drawing) == Force(first)
    && StepChoice(c, {first}, {}, cfg.drawing) == NoTools
    && StepChoice(c, {first, x}, {first}, cfg.drawing) == Force(second)
  }

  lemma {:induction false} UntitledChoices(cfg: Config, first: ToolName, second: ToolName, x: ToolName)
    requires ActivityFirst(cfg.c, cfg.drawing) && first != second && x != second
    requires |Activity(cfg)| >= 2 && Activity(cfg)[0] == first && Activity(cfg)[1] == second
    ensures var c := cfg.c.(titleNeeded := false);
            && StepChoice(c, {}, {}, cfg.drawing) == Force(first)
            && StepChoice(c, {first}, {}, cfg.drawing) == NoTools
            && StepChoice(c, {first, x}, {first}, cfg.drawing) == Force(second)
  {
    TitleChangesNoActivity(cfg.c, cfg.drawing, false);
    ChoicesAlong(cfg.c.(titleNeeded := false), cfg.drawing, first, second, x);
  }

  lemma {:induction false} OvertakingIsATrap(cfg: Config) returns (first: ToolName, second: ToolName, x: ToolName)
    requires Overtakes(cfg.c, cfg.drawing)
    ensures Activity(cfg) != [] && first == Activity(cfg)[0] && x in cfg.Chain() && Trap(cfg, first, second, x)
  {
    x := OvertakenTool(cfg.c, cfg.drawing);
    first, second := Activity(cfg)[0], Activity(cfg)[1];
    ActivityInChain(cfg.c, cfg.drawing, first);
    ChainDistinct(cfg.c, cfg.drawing);
    RoomForThree(cfg, x, first, second);
    ChainAllowed(cfg.c, cfg.drawing, first);
    ChainAllowed(cfg.c, cfg.drawing, x);
    UntitledChoices(cfg, first, second, x);
  }

  lemma {:induction false} ChoicesAt(cfg: Config, run: Run, steps: nat, called: set<ToolName>, succeeded: set<ToolName>)
    requires At(cfg, run, steps, called, succeeded) && cfg.Agent()
    requires cfg.MaxSteps() > steps + 1 + Extra(cfg.c.titleNeeded)
    ensures run.step < cfg.MaxSteps() && Offered(cfg, run)
    ensures Choice(cfg, run) == StepChoice(cfg.c.(titleNeeded := false), called, succeeded, cfg.drawing)
  {
  }

  /** Three tools of the chain leave room for the three turns of that run. */
  lemma {:induction false} RoomForThree(cfg: Config, x: ToolName, first: ToolName, second: ToolName)
    requires Before(cfg.Chain(), x, second) && first in cfg.Chain() && first != x && first != second
    ensures cfg.MaxSteps() >= 4 + Extra(cfg.c.titleNeeded) && cfg.Agent()
  {
    var chain := cfg.Chain();
    var i, j :| 0 <= i < j < |chain| && chain[i] == x && chain[j] == second;
    var k :| 0 <= k < |chain| && chain[k] == first;
    assert i != k && k != j && |chain| >= 3;
  }

  lemma {:induction false} LastTurnBreaksOrder(cfg: Config, run: Run, second: ToolName, x: ToolName, first: ToolName)
    requires At(cfg, run, 2, {first, x}, {first}) && Offered(cfg, run) && Choice(cfg, run) == Force(second)
    requires x != first && Before(cfg.Chain(), x, second)
    ensures !KeepsOrder(cfg, AskedRun(cfg, run, ASK_ONLY).log)
  {
    var log, k := AskedRun(cfg, run, ASK_ONLY).log, |run.log|;
    assert log[..k] == run.log;
    assert log[k].Turn? && log[k].choice == Force(second);
    assert !ForcesInOrder(cfg, log, k);
  }

  /** The third turn forces the second activity tool although x has failed. */
  lemma {:induction false} ThirdTurn(cfg: Config, run: Run, first: ToolName, second: ToolName, x: ToolName)
    requires Fits(cfg, run.messages) && Trap(cfg, first, second, x) && At(cfg, run, 2, {first, x}, {first})
    ensures !KeepsOrder(cfg, RunFrom(cfg, run, [ASK_ONLY]).0)
  {
    ChoicesAt(cfg, run, 2, {first, x}, {first});
    LastTurnBreaksOrder(cfg, run, second, x, first);
    OnlyAsks(cfg, run);
  }

  lemma {:induction false} OnlyAsks(cfg: Config, run: Run)
    requires Fits(cfg, run.messages) && run.step < cfg.MaxSteps()
    ensures RunFrom(cfg, run, [ASK_ONLY]) == (AskedRun(cfg, run, ASK_ONLY).log, Interrupted)
  {
    BreaksOff(cfg, run);
    OneStep(cfg, run, ASK_ONLY, []);
    assert [ASK_ONLY] + [] == [ASK_ONLY];
  }

  lemma {:induction false} SecondTurn(cfg: Config, run: Run, first: ToolName, second: ToolName, x: ToolName)
    returns (inputs: seq<Input>)
    requires Trap(cfg, first, second, x) && At(cfg, run, 1, {first}, {}) && History(cfg, run.log) == Once(cfg, first)
    requires Fits(cfg, run.messages)
    requires Fits(cfg, run.messages + Exchange(run.step, run.used, [CallOf(first), CallOf(x)]))
    ensures !KeepsOrder(cfg, RunFrom(cfg, run, inputs).0)
  {
    ChoicesAt(cfg, run, 1, {first}, {});
    var next := SecondRound(cfg, run, first, x);
    ThirdTurn(cfg, next, first, second, x);
    var input := CallInput([CallOf(first), CallOf(x)], [Ran(true), Ran(false)]);
    OneStep(cfg, run, input, [ASK_ONLY]);
    inputs := [input] + [ASK_ONLY];
  }

  lemma {:induction false} StillFits(cfg: Config, run: Run, next: Run, first: ToolName, x: ToolName)
    requires FitsThrice(cfg, run.messages, run.used, run.step, first, x)
    requires Exchanged(run, next, [CallOf(first)]) && next.step == run.step + 1
    ensures Fits(cfg, next.messages)
    ensures Fits(cfg, next.messages + Exchange(next.step, next.used, [CallOf(first), CallOf(x)]))
  {
  }

  lemma {:induction false} FirstTurn(cfg: Config, run: Run, first: ToolName, second: ToolName, x: ToolName)
    returns (inputs: seq<Input>)
    requires Trap(cfg, first, second, x) && At(cfg, run, 0, {}, {}) && History(cfg, run.log) == []
    requires FitsThrice(cfg, run.messages, run.used, run.step, first, x)
    ensures !KeepsOrder(cfg, RunFrom(cfg, run, inputs).0)
  {
    ChoicesAt(cfg, run, 0, {}, {});
    var next := FirstFails(cfg, run, first);
    StillFits(cfg, run, next, first, x);
    var rest := SecondTurn(cfg, next, first, second, x);
    var input := CallInput([CallOf(first)], [Ran(false)]);
    OneStep(cfg, run, input, rest);
    inputs := [input] + rest;
  }

  /** For every request with overtaken tools, and every conversation with room for two
      rounds, some provider makes a run in which a tool of the chain is forced after an earlier one failed. */
  lemma {:induction false} SomeRunBreaksOrder(cfg: Config, messages: seq<Message>) returns (inputs: seq<Input>)
    requires Roomy(cfg, messages) && WellFormed(messages) && Overtakes(cfg.c, cfg.drawing)
    ensures !KeepsOrder(cfg, AgentRun(cfg, messages, inputs).0)
  {
    var first, second, x := OvertakingIsATrap(cfg);
    var opening, run := Opening(cfg, messages);
    var rest := FirstTurn(cfg, run, first, second, x);
    inputs := opening + rest;
  }

  /** The promise is kept by every provider exactly when nothing can be overtaken. */
  lemma {:induction false} OrderKeptIff(cfg: Config, messages: seq<Message>)
    requires WellFormed(messages) && Roomy(cfg, messages)
    ensures (forall inputs :: KeepsOrder(cfg, AgentRun(cfg, messages, inputs).0)) <==> !Overtakes(cfg.c, cfg.drawing)
  {
    if Overtakes(cfg.c, cfg.drawing) {
      var inputs := SomeRunBreaksOrder(cfg, messages);
    } else {
      forall inputs ensures KeepsOrder(cfg, AgentRun(cfg, messages, inputs).0) {
        EveryRunKeepsOrder(cfg, messages, inputs);
      }
    }
  }
}
