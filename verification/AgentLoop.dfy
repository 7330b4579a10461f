/** The assistant's bounded agent loop. What the provider answers, what the tools
    return and where the run is interrupted are inputs, so a run is a function of
    them; the methods carry it out step by step. */
module AgentLoop {
  import opened Text
  import opened ToolPolicy
  import opened ReadChain
  import opened Transcript
  import opened AgentCalls
  import opened RelayRetry
  import Compaction

  const CALLS_PER_ROUND := 4
  const CALLS_PER_RESPONSE := 32
  const MAX_RECOVERIES := 2
  const CONTEXT_TARGET_BYTES := 393216
  const CONTEXT_MAX_BYTES := 524288

  /** Everything fixed for one run. `readOnly` judges a call by its tool and raw
      arguments, `canonical` is the form of the arguments the guard compares, and
      `retried` marks a repeated request. */
  datatype Config = Config(
    settings: Settings, c: UserContext, booked: bool, drawing: bool, retried: bool,
    readOnly: (ToolName, string) -> bool, canonical: string -> string, codec: Compaction.Codec)
  {
    function Chain(): seq<ToolName> {
      ReadChain.Chain(c, drawing)
    }

    function MaxSteps(): (n: int)
      ensures n >= 1
      ensures c.titleNeeded ==> n >= 2
      ensures Chain() != [] ==> n >= |Chain()| + 1 + Extra(c.titleNeeded)
    {
      ReadChain.MaxSteps(settings, c, booked, drawing)
    }

    predicate Forced() {
      AnyForced(settings, c, booked, drawing)
    }

    predicate Agent() {
      AgentEnabled(settings, c, booked, drawing)
    }

    function KeyOf(call: Call): Key {
      (call.tool, canonical(call.args))
    }

    predicate ReadsOnly(call: Call) {
      readOnly(call.tool, call.args)
    }

    /** A repeated request may not repeat an administrator's write. */
    predicate Blocks(call: Call) {
      IsAdministratorTool(call.tool) && retried && !ReadsOnly(call)
    }
  }

  // ---------- inputs ----------

  /** One tool call as the world answers it: the run may be interrupted before it or
      aborted after it, and a tool that runs may end the whole conversation. */
  datatype ToolRun = ToolRun(
    stopBefore: bool, ok: bool, attempted: bool, terminates: bool, aborted: bool, content: string)

  /** One pass of the loop as the world answers it. */
  datatype Input = Input(
    interruptedBefore: bool, first: Attempt, second: Attempt, third: Attempt, interruptedAfter: bool,
    resetFails: bool, usable: bool, server: ToolRun, tools: seq<ToolRun>)

  /** Calls beyond the listed ones meet an interruption. */
  function ToolAt(tools: seq<ToolRun>, i: nat): ToolRun {
    if i < |tools| then tools[i] else ToolRun(true, false, false, false, false, "")
  }

  // ---------- what a run leaves behind ----------

  datatype Verdict = Executed(ok: bool, attempted: bool) | OverLimit | RetryBlocked | Repeated
  datatype Receipt = Receipt(call: Call, verdict: Verdict)

  datatype Event =
    | Turn(step: nat, messages: seq<Message>, toolsOffered: bool, choice: ToolChoice,
           sent: seq<ToolChoice>, title: bool)
    | Round(step: nat, receipts: seq<Receipt>)
    | ServerRead(step: nat, call: Call, ok: bool)

  datatype Outcome =
    | Answered | Interrupted | Aborted | ContextTooLarge | BuildFailed | UpstreamFailed | InvalidResponse
    | RequiredToolMissing | EmptyResponse | StepLimit | TooManyCalls | StreamFailed

  /** The executed calls of a round, as the guard sees them. */
  function Executions(cfg: Config, receipts: seq<Receipt>): seq<Execution> {
    if receipts == [] then []
    else
      Executions(cfg, receipts[..|receipts| - 1]) + OwnExecution(cfg, receipts[|receipts| - 1])
  }

  function OwnExecution(cfg: Config, r: Receipt): seq<Execution> {
    match r.verdict
    case Executed(ok, attempted) => [Execution(cfg.KeyOf(r.call), cfg.ReadsOnly(r.call), ok || attempted)]
    case _ => []
  }

  function EventHistory(cfg: Config, e: Event): seq<Execution> {
    if e.Round? then Executions(cfg, e.receipts) else []
  }

  function History(cfg: Config, log: seq<Event>): seq<Execution> {
    if log == [] then [] else History(cfg, log[..|log| - 1]) + EventHistory(cfg, log[|log| - 1])
  }

  function ExecutedCount(receipts: seq<Receipt>): nat {
    if receipts == [] then 0
    else ExecutedCount(receipts[..|receipts| - 1]) + if receipts[|receipts| - 1].verdict.Executed? then 1 else 0
  }

  function RoundCalled(receipts: seq<Receipt>): set<ToolName> {
    set r | r in receipts && r.verdict.Executed? :: r.call.tool
  }

  function RoundSucceeded(receipts: seq<Receipt>): set<ToolName> {
    set r | r in receipts && r.verdict.Executed? && r.verdict.ok :: r.call.tool
  }

  // ---------- the state of the loop ----------

  datatype Run = Run(
    messages: seq<Message>, used: set<string>, title: bool,
    called: set<ToolName>, succeeded: set<ToolName>,
    finalOnly: bool, recoveries: nat, step: nat, log: seq<Event>)

  datatype Next = Continue(run: Run) | Stop(log: seq<Event>, outcome: Outcome)

  function Start(cfg: Config, messages: seq<Message>): Run {
    Run(messages, IdsIn(messages), cfg.c.titleNeeded, {}, {}, false, 0, 0, [])
  }

  function IdsIn(messages: seq<Message>): set<string> {
    set id | id in CallIds(messages)
  }

  function Context(cfg: Config, run: Run): UserContext {
    cfg.c.(titleNeeded := run.title)
  }

  function AddTurn(run: Run, e: Event): Run {
    run.(log := run.log + [e])
  }

  function Recover(run: Run, messages: seq<Message>): Run {
    run.(messages := messages, recoveries := run.recoveries + 1)
  }

  function Skip(run: Run): Run {
    run.(title := false, step := run.step + 1)
  }

  function ToolResult(call: Call, content: string): Message {
    Message(Tool, content, "", [], call.id)
  }

  function AddServerRead(run: Run, call: Call, content: string, ok: bool): Run {
    run.(messages := run.messages + [Message(Assistant, "", "", [call], "")] + [ToolResult(call, content)],
         used := run.used + {call.id},
         called := run.called + {call.tool},
         succeeded := if ok then run.succeeded + {call.tool} else run.succeeded,
         step := run.step + 1,
         log := run.log + [ServerRead(run.step, call, ok)])
  }

  function AddRound(run: Run, head: Message, receipts: seq<Receipt>, results: seq<Message>): Run {
    run.(messages := run.messages + [head] + results,
         used := run.used + IdSet(head.calls),
         title := run.title && !(exists c | c in head.calls :: c.tool == SetTitle),
         called := run.called + RoundCalled(receipts),
         succeeded := run.succeeded + RoundSucceeded(receipts),
         finalOnly := ExecutedCount(receipts) == 0,
         step := run.step + 1,
         log := run.log + [Round(run.step, receipts)])
  }

  // ---------- one round of tool calls ----------

  /** The round's limit, the retry block and the guard are asked in this order, and
      only then does the tool run. */
  function VerdictOf(cfg: Config, history: seq<Execution>, call: Call, executed: nat, t: ToolRun): Verdict {
    if executed >= CALLS_PER_ROUND then OverLimit
    else if cfg.Blocks(call) then RetryBlocked
    else if !Allows(After(history), cfg.KeyOf(call), cfg.ReadsOnly(call)) then Repeated
    else Executed(t.ok, t.attempted)
  }

  predicate EndsRun(verdict: Verdict, t: ToolRun) {
    (verdict.Executed? && t.terminates) || t.aborted
  }

  datatype Batch = Batch(receipts: seq<Receipt>, results: seq<Message>, stop: bool)

  /** The remaining calls of a response, after those already done. */
  function BatchFrom(cfg: Config, history: seq<Execution>, calls: seq<Call>, tools: seq<ToolRun>, done: Batch): Batch
    decreases |calls| - |done.receipts|
  {
    var i := |done.receipts|;
    if i >= |calls| then done
    else
      var t := ToolAt(tools, i);
      if t.stopBefore then done.(stop := true)
      else
        var before := history + Executions(cfg, done.receipts);
        var verdict := VerdictOf(cfg, before, calls[i], ExecutedCount(done.receipts), t);
        var receipts := done.receipts + [Receipt(calls[i], verdict)];
        if EndsRun(verdict, t) then Batch(receipts, done.results, true)
        else BatchFrom(cfg, history, calls, tools,
               Batch(receipts, done.results + [ToolResult(calls[i], t.content)], false))
  }

  function BatchOf(cfg: Config, history: seq<Execution>, calls: seq<Call>, tools: seq<ToolRun>): Batch {
    BatchFrom(cfg, history, calls, tools, Batch([], [], false))
  }

  lemma {:induction false} ReceiptsSnoc(cfg: Config, receipts: seq<Receipt>, r: Receipt)
    ensures Executions(cfg, receipts + [r]) == Executions(cfg, receipts) + OwnExecution(cfg, r)
    ensures ExecutedCount(receipts + [r]) == ExecutedCount(receipts) + if r.verdict.Executed? then 1 else 0
  {
    assert (receipts + [r])[..|receipts|] == receipts;
  }

  lemma {:induction false} HistoryGrows(cfg: Config, history: seq<Execution>, receipts: seq<Receipt>, r: Receipt)
    ensures history + Executions(cfg, receipts + [r]) == history + Executions(cfg, receipts) + OwnExecution(cfg, r)
    ensures ExecutedCount(receipts + [r]) == ExecutedCount(receipts) + if r.verdict.Executed? then 1 else 0
  {
    ReceiptsSnoc(cfg, receipts, r);
  }

  method ExecuteCall(
    cfg: Config, guard: LoopGuard, call: Call, executed: nat, t: ToolRun, ghost history: seq<Execution>)
    returns (verdict: Verdict, stop: bool)
    requires guard.View() == After(history)
    modifies guard
    ensures verdict == VerdictOf(cfg, history, call, executed, t) && stop == EndsRun(verdict, t)
    ensures !stop ==> guard.View() == After(history + OwnExecution(cfg, Receipt(call, verdict)))
  {
    assert history + [] == history;
    if executed >= CALLS_PER_ROUND {
      return OverLimit, t.aborted;
    }
    if cfg.Blocks(call) {
      return RetryBlocked, t.aborted;
    }
    var key := cfg.KeyOf(call);
    var readOnly := cfg.ReadsOnly(call);
    var allowed := guard.Allow(key, readOnly);
    if !allowed {
      return Repeated, t.aborted;
    }
    verdict := Executed(t.ok, t.attempted);
    if t.terminates {
      return verdict, true;
    }
    guard.Complete(key, readOnly, t.ok || t.attempted);
    ghost var e := Execution(key, readOnly, t.ok || t.attempted);
    assert (history + [e])[..|history|] == history;
    stop := t.aborted;
  }

  method RunBatch(cfg: Config, guard: LoopGuard, calls: seq<Call>, tools: seq<ToolRun>, ghost history: seq<Execution>)
    returns (batch: Batch)
    requires guard.View() == After(history)
    modifies guard
    ensures batch == BatchOf(cfg, history, calls, tools)
    ensures !batch.stop ==> guard.View() == After(history + Executions(cfg, batch.receipts))
  {
    batch := Batch([], [], false);
    var executed := 0;
    assert history + [] == history;
    while |batch.receipts| < |calls|
      invariant |batch.receipts| <= |calls| && !batch.stop && executed == ExecutedCount(batch.receipts)
      invariant BatchFrom(cfg, history, calls, tools, batch) == BatchOf(cfg, history, calls, tools)
      invariant guard.View() == After(history + Executions(cfg, batch.receipts))
      decreases |calls| - |batch.receipts|
    {
      var i := |batch.receipts|;
      var t := ToolAt(tools, i);
      if t.stopBefore {
        return batch.(stop := true);
      }
      ghost var before := history + Executions(cfg, batch.receipts);
      var verdict, stop := ExecuteCall(cfg, guard, calls[i], executed, t, before);
      var r := Receipt(calls[i], verdict);
      HistoryGrows(cfg, history, batch.receipts, r);
      if stop {
        return Batch(batch.receipts + [r], batch.results, true);
      }
      executed := executed + if verdict.Executed? then 1 else 0;
      batch := Batch(batch.receipts + [r], batch.results + [ToolResult(calls[i], t.content)], false);
    }
  }

  // ---------- one pass ----------

  /** Compacts to the target, or to the hard limit when required context is larger. */
  ghost function ContextOf(cfg: Config, ms: seq<Message>): Compaction.Outcome {
    var first := Compaction.Expected(cfg.codec, ms, CONTEXT_TARGET_BYTES);
    if first.OverBudget? then Compaction.Expected(cfg.codec, ms, CONTEXT_MAX_BYTES) else first
  }

  /** Tools are offered except in the reserved last turn and after a refused round. */
  predicate Offered(cfg: Config, run: Run) {
    cfg.Agent() && run.step < cfg.MaxSteps() - 1 && !run.finalOnly
  }

  function Choice(cfg: Config, run: Run): ToolChoice {
    if Offered(cfg, run) then StepChoice(Context(cfg, run), run.called, run.succeeded, cfg.drawing) else Omitted
  }

  function RelayOf(cfg: Config, run: Run, input: Input): Relayed {
    Relay(Choice(cfg, run), false, false, [input.first, input.second, input.third])
  }

  /** The state after the request of a pass. */
  function AskedRun(cfg: Config, run: Run, input: Input): Run {
    AddTurn(run, Turn(run.step, run.messages, Offered(cfg, run), Choice(cfg, run),
                      RelayOf(cfg, run, input).sent, run.title))
  }

  predicate ContextExceeded(status: int, body: Body) {
    (status == 400 || status == 413) && body.contextExceeded
  }

  /** Reads that may run on the server when the provider cannot be told to call them. */
  predicate FallbackAllowed(t: ToolName) {
    t.L1Recommendation? || t.AccountAccess? || t.ServiceFacts? || t.AvailableModels?
  }

  predicate CallsOnly(calls: seq<Call>, tool: ToolName) {
    |calls| == 1 && calls[0].tool == tool
  }

  function ServerCall(tool: ToolName, step: nat): Call {
    Call("assistant-server-read-" + Decimal(step + 1), "function", tool, "")
  }

  /** The context cut to two thirds, if that is possible. */
  ghost function Smaller(cfg: Config, run: Run): Compaction.Outcome {
    Compaction.Expected(cfg.codec, run.messages, Compaction.Bytes(cfg.codec, run.messages) * 2 / 3)
  }

  ghost predicate Shrinks(cfg: Config, run: Run, relayed: Relayed) {
    run.recoveries < MAX_RECOVERIES && ContextExceeded(relayed.status, relayed.body) && Smaller(cfg, run).Compacted?
  }

  function ServerReadOf(run: Run, tool: ToolName, input: Input): Next {
    var call := Normalized([ServerCall(tool, run.step)], run.step, run.used)[0];
    var after := AddServerRead(run, call, input.server.content, input.server.ok);
    if input.server.aborted then Stop(after.log, Aborted) else Continue(after)
  }

  /** A turn the provider refused: shrink and repeat, give up an optional title,
      read on the server, or fail. */
  ghost function RefusedOf(cfg: Config, run: Run, choice: ToolChoice, relayed: Relayed, input: Input): Next {
    if Shrinks(cfg, run, relayed) then
      if input.resetFails then Stop(run.log, StreamFailed) else Continue(Recover(run, Smaller(cfg, run).messages))
    else if choice.Named? && relayed.body.namedUnsupported && choice.tool == SetTitle then Continue(Skip(run))
    else if choice.Named? && relayed.body.namedUnsupported && FallbackAllowed(choice.tool) then
      ServerReadOf(run, choice.tool, input)
    else Stop(run.log, UpstreamFailed)
  }

  function AnswerOf(run: Run, input: Input): Next {
    Stop(run.log, if input.usable then Answered else EmptyResponse)
  }

  /** The provider ignored the title tool. Its answer is only taken over when the
      request itself forces no tool. */
  function IgnoredTitleOf(cfg: Config, run: Run, body: Body, input: Input): Next {
    var untitled := StepChoice(cfg.c.(titleNeeded := false), run.called, run.succeeded, cfg.drawing);
    if untitled.Named? || body.calls != [] || Trim(body.content) == "" then
      if input.resetFails then Stop(run.log, StreamFailed) else Continue(Skip(run))
    else AnswerOf(run, input)
  }

  function HeadOf(run: Run, body: Body): Message {
    Message(Assistant, body.content, "", Normalized(body.calls, run.step, run.used), "")
  }

  function RoundOf(cfg: Config, run: Run, body: Body, input: Input): Next {
    var head := HeadOf(run, body);
    var batch := BatchOf(cfg, History(cfg, run.log), head.calls, input.tools);
    if batch.stop then Stop(run.log + [Round(run.step, batch.receipts)], Interrupted)
    else Continue(AddRound(run, head, batch.receipts, batch.results))
  }

  /** A reply the provider gave: answer, skip an ignored title, or run its tools. */
  function RepliedOf(cfg: Config, run: Run, choice: ToolChoice, body: Body, input: Input): Next {
    if !body.valid then Stop(run.log, InvalidResponse)
    else if choice.Named? && choice.tool == SetTitle && !CallsOnly(body.calls, SetTitle) then
      IgnoredTitleOf(cfg, run, body, input)
    else if cfg.Forced() && choice.Named? && !CallsOnly(body.calls, choice.tool) then Stop(run.log, RequiredToolMissing)
    else CallsOf(cfg, run, body, input)
  }

  /** The answer, or the calls that go with it. */
  function CallsOf(cfg: Config, run: Run, body: Body, input: Input): Next {
    if body.calls == [] then AnswerOf(run, input)
    else if (!cfg.settings.loopEnabled && !cfg.Forced()) || run.step >= cfg.MaxSteps() - 1 || run.finalOnly then
      Stop(run.log, StepLimit)
    else if |body.calls| > CALLS_PER_RESPONSE then Stop(run.log, TooManyCalls)
    else RoundOf(cfg, run, body, input)
  }

  /** What comes of a request that was made. */
  ghost function ReplyOf(cfg: Config, asked: Run, choice: ToolChoice, relayed: Relayed, input: Input): Next {
    if input.interruptedAfter then Stop(asked.log, Interrupted)
    else if relayed.failed then Stop(asked.log, BuildFailed)
    else if IsSuccess(relayed.status) then RepliedOf(cfg, asked, choice, relayed.body, input)
    else RefusedOf(cfg, asked, choice, relayed, input)
  }

  ghost function AskedOf(cfg: Config, run: Run, input: Input): Next {
    ReplyOf(cfg, AskedRun(cfg, run, input), Choice(cfg, run), RelayOf(cfg, run, input), input)
  }

  ghost function PassOf(cfg: Config, run: Run, input: Input): Next {
    if input.interruptedBefore then Stop(run.log, Interrupted)
    else
      match ContextOf(cfg, run.messages)
      case Compacted(messages) => AskedOf(cfg, run.(messages := messages), input)
      case _ => Stop(run.log, ContextTooLarge)
  }

  /** A run from some state on. Without a further input it is interrupted. */
  ghost function RunFrom(cfg: Config, run: Run, inputs: seq<Input>): (seq<Event>, Outcome)
    decreases |inputs|
  {
    if run.step >= cfg.MaxSteps() then (run.log, StepLimit)
    else if inputs == [] then (run.log, Interrupted)
    else
      match PassOf(cfg, run, inputs[0])
      case Stop(log, outcome) => (log, outcome)
      case Continue(next) => RunFrom(cfg, next, inputs[1..])
  }

  /** The whole run over the prompt and conversation. */
  ghost function AgentRun(cfg: Config, messages: seq<Message>, inputs: seq<Input>): (seq<Event>, Outcome) {
    match ContextOf(cfg, messages)
    case Compacted(fitting) => RunFrom(cfg, Start(cfg, fitting), inputs)
    case _ => ([], ContextTooLarge)
  }

  // ---------- the loop ----------

  method CompactContext(cfg: Config, ms: seq<Message>) returns (r: Compaction.Outcome)
    ensures r == ContextOf(cfg, ms)
  {
    r := Compaction.Compact(cfg.codec, ms, CONTEXT_TARGET_BYTES);
    if r.OverBudget? {
      r := Compaction.Compact(cfg.codec, ms, CONTEXT_MAX_BYTES);
    }
  }

  method ReadOnServer(run: Run, tool: ToolName, input: Input) returns (next: Next)
    ensures next == ServerReadOf(run, tool, input)
  {
    var calls, used := NormalizeCalls([ServerCall(tool, run.step)], run.step, run.used);
    var call := calls[0];
    var after := AddServerRead(run, call, input.server.content, input.server.ok);
    if input.server.aborted {
      return Stop(after.log, Aborted);
    }
    return Continue(after);
  }

  method RefusedTurn(cfg: Config, run: Run, choice: ToolChoice, relayed: Relayed, input: Input) returns (next: Next)
    ensures next == RefusedOf(cfg, run, choice, relayed, input)
  {
    if run.recoveries < MAX_RECOVERIES && ContextExceeded(relayed.status, relayed.body) {
      var smaller := Compaction.Compact(cfg.codec, run.messages, Compaction.Bytes(cfg.codec, run.messages) * 2 / 3);
      if smaller.Compacted? {
        if input.resetFails {
          return Stop(run.log, StreamFailed);
        }
        return Continue(Recover(run, smaller.messages));
      }
    }
    if choice.Named? && choice.tool == SetTitle && relayed.body.namedUnsupported {
      return Continue(Skip(run));
    }
    if choice.Named? && relayed.body.namedUnsupported && FallbackAllowed(choice.tool) {
      next := ReadOnServer(run, choice.tool, input);
      return;
    }
    return Stop(run.log, UpstreamFailed);
  }

  method IgnoredTitle(cfg: Config, run: Run, body: Body, input: Input) returns (next: Next)
    ensures next == IgnoredTitleOf(cfg, run, body, input)
  {
    var untitled := StepChoice(cfg.c.(titleNeeded := false), run.called, run.succeeded, cfg.drawing);
    if untitled.Named? || body.calls != [] || Trim(body.content) == "" {
      if input.resetFails {
        return Stop(run.log, StreamFailed);
      }
      return Continue(Skip(run));
    }
    return AnswerOf(run, input);
  }

  method FinishRound(cfg: Config, guard: LoopGuard, run: Run, body: Body, input: Input) returns (next: Next)
    requires guard.View() == After(History(cfg, run.log))
    modifies guard
    ensures next == RoundOf(cfg, run, body, input)
    ensures next.Continue? ==> guard.View() == After(History(cfg, next.run.log))
  {
    var calls, used := NormalizeCalls(body.calls, run.step, run.used);
    var batch := RunBatch(cfg, guard, calls, input.tools, History(cfg, run.log));
    if batch.stop {
      return Stop(run.log + [Round(run.step, batch.receipts)], Interrupted);
    }
    var head := Message(Assistant, body.content, "", calls, "");
    HistorySnoc(cfg, run.log, Round(run.step, batch.receipts));
    return Continue(AddRound(run, head, batch.receipts, batch.results));
  }

  lemma {:induction false} HistorySnoc(cfg: Config, log: seq<Event>, e: Event)
    ensures History(cfg, log + [e]) == History(cfg, log) + EventHistory(cfg, e)
    ensures !e.Round? ==> History(cfg, log + [e]) == History(cfg, log)
  {
    assert (log + [e])[..|log|] == log;
    assert History(cfg, log) + [] == History(cfg, log);
  }

  method RepliedTurn(cfg: Config, guard: LoopGuard, run: Run, choice: ToolChoice, body: Body, input: Input)
    returns (next: Next)
    requires guard.View() == After(History(cfg, run.log))
    modifies guard
    ensures next == RepliedOf(cfg, run, choice, body, input)
    ensures next.Continue? ==> guard.View() == After(History(cfg, next.run.log))
  {
    if !body.valid {
      return Stop(run.log, InvalidResponse);
    }
    if choice.Named? && choice.tool == SetTitle && !CallsOnly(body.calls, SetTitle) {
      next := IgnoredTitle(cfg, run, body, input);
      return;
    }
    if cfg.Forced() && choice.Named? && !CallsOnly(body.calls, choice.tool) {
      return Stop(run.log, RequiredToolMissing);
    }
    if body.calls == [] {
      return AnswerOf(run, input);
    }
    if (!cfg.settings.loopEnabled && !cfg.Forced()) || run.step >= cfg.MaxSteps() - 1 || run.finalOnly {
      return Stop(run.log, StepLimit);
    }
    if |body.calls| > CALLS_PER_RESPONSE {
      return Stop(run.log, TooManyCalls);
    }
    next := FinishRound(cfg, guard, run, body, input);
  }

  /** Nothing but a round changes what the guard has to know. */
  lemma {:induction false} RefusedKeepsHistory(
    cfg: Config, run: Run, choice: ToolChoice, relayed: Relayed, input: Input)
    ensures var next := RefusedOf(cfg, run, choice, relayed, input);
            next.Continue? ==> History(cfg, next.run.log) == History(cfg, run.log)
  {
    if choice.Named? {
      var call := Normalized([ServerCall(choice.tool, run.step)], run.step, run.used)[0];
      HistorySnoc(cfg, run.log, ServerRead(run.step, call, input.server.ok));
    }
  }

  method Pass(cfg: Config, guard: LoopGuard, run: Run, input: Input) returns (next: Next)
    requires guard.View() == After(History(cfg, run.log))
    modifies guard
    ensures next == PassOf(cfg, run, input)
    ensures next.Continue? ==> guard.View() == After(History(cfg, next.run.log))
  {
    if input.interruptedBefore {
      return Stop(run.log, Interrupted);
    }
    var compacted := CompactContext(cfg, run.messages);
    if !compacted.Compacted? {
      return Stop(run.log, ContextTooLarge);
    }
    var ready := run.(messages := compacted.messages);
    var choice := Choice(cfg, ready);
    var relayed := RelayWithRetry(choice, [input.first, input.second, input.third]);
    var turn := Turn(ready.step, ready.messages, Offered(cfg, ready), choice, relayed.sent, ready.title);
    var asked := AddTurn(ready, turn);
    HistorySnoc(cfg, run.log, turn);
    if input.interruptedAfter {
      return Stop(asked.log, Interrupted);
    }
    if relayed.failed {
      return Stop(asked.log, BuildFailed);
    }
    if IsSuccess(relayed.status) {
      next := RepliedTurn(cfg, guard, asked, choice, relayed.body, input);
    } else {
      RefusedKeepsHistory(cfg, asked, choice, relayed, input);
      next := RefusedTurn(cfg, asked, choice, relayed, input);
    }
  }

  method RunAgent(cfg: Config, messages: seq<Message>, inputs: seq<Input>) returns (log: seq<Event>, outcome: Outcome)
    ensures (log, outcome) == AgentRun(cfg, messages, inputs)
  {
    var compacted := CompactContext(cfg, messages);
    if !compacted.Compacted? {
      return [], ContextTooLarge;
    }
    log, outcome := RunSteps(cfg, compacted.messages, inputs);
  }

  method RunSteps(cfg: Config, messages: seq<Message>, inputs: seq<Input>) returns (log: seq<Event>, outcome: Outcome)
    ensures (log, outcome) == RunFrom(cfg, Start(cfg, messages), inputs)
  {
    var guard := new LoopGuard();
    var run := Start(cfg, messages);
    var i := 0;
    assert inputs[0..] == inputs;
    while run.step < cfg.MaxSteps()
      invariant 0 <= i <= |inputs|
      invariant RunFrom(cfg, run, inputs[i..]) == RunFrom(cfg, Start(cfg, messages), inputs)
      invariant fresh(guard) && guard.View() == After(History(cfg, run.log))
      decreases |inputs| - i
    {
      if i == |inputs| {
        return run.log, Interrupted;
      }
      assert inputs[i..][1..] == inputs[i + 1..];
      var next := Pass(cfg, guard, run, inputs[i]);
      if next.Stop? {
        return next.log, next.outcome;
      }
      run := next.run;
      i := i + 1;
    }
    return run.log, StepLimit;
  }
}
