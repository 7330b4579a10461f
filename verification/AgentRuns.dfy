/** What every run of the agent loop keeps, for all providers, tools and
    interruptions. */
module AgentRuns {
  import opened Basics
  import opened ToolPolicy
  import opened ReadChain
  import opened Transcript
  import opened AgentCalls
  import opened RelayRetry
  import opened AgentLoop
  import Compaction

  // ---------- reading a log ----------

  function RoundFailed(receipts: seq<Receipt>): set<ToolName> {
    set r | r in receipts && r.verdict.Executed? && !r.verdict.ok :: r.call.tool
  }

  function EventCalled(e: Event): set<ToolName> {
    match e
    case Turn(_, _, _, _, _, _) => {}
    case Round(_, receipts) => RoundCalled(receipts)
    case ServerRead(_, call, _) => {call.tool}
  }

  function EventFailed(e: Event): set<ToolName> {
    match e
    case Turn(_, _, _, _, _, _) => {}
    case Round(_, receipts) => RoundFailed(receipts)
    case ServerRead(_, call, ok) => if ok then {} else {call.tool}
  }

  function EventSucceeded(e: Event): set<ToolName> {
    match e
    case Turn(_, _, _, _, _, _) => {}
    case Round(_, receipts) => RoundSucceeded(receipts)
    case ServerRead(_, call, ok) => if ok then {call.tool} else {}
  }

  /** The tools a run has executed, those that failed at least once, and those that
      succeeded at least once. */
  function Called(log: seq<Event>): set<ToolName> {
    if log == [] then {} else Called(log[..|log| - 1]) + EventCalled(log[|log| - 1])
  }

  function Failed(log: seq<Event>): set<ToolName> {
    if log == [] then {} else Failed(log[..|log| - 1]) + EventFailed(log[|log| - 1])
  }

  function Succeeded(log: seq<Event>): set<ToolName> {
    if log == [] then {} else Succeeded(log[..|log| - 1]) + EventSucceeded(log[|log| - 1])
  }

  function TurnCount(log: seq<Event>): nat {
    if log == [] then 0 else TurnCount(log[..|log| - 1]) + if log[|log| - 1].Turn? then 1 else 0
  }

  function EventCalls(e: Event): seq<Call> {
    match e
    case Turn(_, _, _, _, _, _) => []
    case Round(_, receipts) => seq(|receipts|, i requires 0 <= i < |receipts| => receipts[i].call)
    case ServerRead(_, call, _) => [call]
  }

  lemma {:induction false} LogSnoc(cfg: Config, log: seq<Event>, e: Event)
    ensures Called(log + [e]) == Called(log) + EventCalled(e)
    ensures Failed(log + [e]) == Failed(log) + EventFailed(e)
    ensures Succeeded(log + [e]) == Succeeded(log) + EventSucceeded(e)
    ensures TurnCount(log + [e]) == TurnCount(log) + if e.Turn? then 1 else 0
  {
    assert (log + [e])[..|log|] == log;
  }

  // ---------- what every event keeps ----------

  /** An upstream request: well formed, within the context limit, at most three relay
      calls, no tools in the reserved last turn, and a tool choice that retries only
      adapt. */
  ghost predicate TurnKept(cfg: Config, e: Event)
    requires e.Turn?
  {
    && WellFormed(e.messages)
    && Compaction.Bytes(cfg.codec, e.messages) <= CONTEXT_MAX_BYTES
    && |e.sent| <= MAX_RELAY_ATTEMPTS
    && (forall s | s in e.sent :: Adapts(e.choice, s))
    && (e.toolsOffered ==> cfg.Agent() && e.step < cfg.MaxSteps() - 1)
    && (!e.toolsOffered ==> e.choice == Omitted)
  }

  ghost predicate RoundKept(cfg: Config, e: Event)
    requires e.Round?
  {
    && cfg.Agent() && e.step < cfg.MaxSteps() - 1
    && |e.receipts| <= CALLS_PER_RESPONSE
    && ExecutedCount(e.receipts) <= CALLS_PER_ROUND
  }

  ghost predicate EventKept(cfg: Config, e: Event) {
    match e
    case Turn(_, _, _, _, _, _) => TurnKept(cfg, e)
    case Round(_, _) => RoundKept(cfg, e)
    case ServerRead(step, call, _) => cfg.Agent() && step < cfg.MaxSteps() - 1 && FallbackAllowed(call.tool)
  }

  predicate Refused(e: Event) {
    e.Round? && ExecutedCount(e.receipts) == 0
  }

  predicate BareTurn(e: Event) {
    e.Turn? && !e.toolsOffered
  }

  /** After a round in which nothing ran, only tool-free turns follow, at most three. */
  ghost predicate RefusalEndsWork(log: seq<Event>) {
    forall i :: 0 <= i < |log| - 1 && Refused(log[i]) ==>
      |log| - 1 - i <= MAX_RECOVERIES + 1 && forall j :: i < j < |log| ==> BareTurn(log[j])
  }

  /** The messages close with a message making `calls` and one result for each. */
  ghost predicate EndsWith(ms: seq<Message>, calls: seq<Call>) {
    var at := |ms| - |calls|;
    at >= 1 && ms[at - 1].role == Assistant && ms[at - 1].calls == calls && Answers(ms[at..], calls)
  }

  /** What was executed is what the provider is shown next. */
  ghost predicate Visible(log: seq<Event>) {
    forall k :: 0 <= k < |log| - 1 && !log[k].Turn? ==>
      log[k + 1].Turn? && EndsWith(log[k + 1].messages, EventCalls(log[k]))
  }

  // ---------- what every event owes to those before it ----------

  /** The reads the request needs were all made, or one of them failed. */
  ghost predicate ChainRead(cfg: Config, log: seq<Event>) {
    (exists t | t in cfg.Chain() :: t in Failed(log)) || forall t | t in cfg.Chain() :: t in Called(log)
  }

  /** Steps start at zero and go up by at most one, and by one after work was done. */
  predicate StepFollows(before: seq<Event>, step: nat) {
    if before == [] then step == 0
    else
      var last := before[|before| - 1];
      last.step <= step <= last.step + 1 && (!last.Turn? ==> step == last.step + 1)
  }

  /** A turn that offers tools makes the choice its predecessors call for. One that
      does not comes, for a plain request, after all its reads or a failed one. A
      title is asked for in the first step only, before anything has run. */
  ghost predicate TurnFollows(cfg: Config, before: seq<Event>, e: Event)
    requires e.Turn?
  {
    && StepFollows(before, e.step)
    && (before != [] && before[|before| - 1].Round? ==> before[|before| - 1].receipts != [])
    && (e.toolsOffered ==>
          e.choice == StepChoice(cfg.c.(titleNeeded := e.title), Called(before), Succeeded(before), cfg.drawing))
    && (!e.toolsOffered && Plain(cfg.c, cfg.drawing) ==> ChainRead(cfg, before))
    && (e.title ==> cfg.c.titleNeeded && e.step == 0 && Called(before) == {})
  }

  predicate OnlyTool(receipts: seq<Receipt>, tool: ToolName) {
    |receipts| <= 1 && forall r | r in receipts :: r.call.tool == tool
  }

  /** Work answers the turn before it, in its step: that turn offered tools, a
      server-side read is of the tool it named, and where the request forces tools a
      round after a named choice is a call of that tool and no other. */
  ghost predicate WorkFollows(cfg: Config, before: seq<Event>, e: Event)
    requires !e.Turn?
  {
    before != [] &&
    var asked := before[|before| - 1];
    && asked.Turn? && asked.toolsOffered && e.step == asked.step
    && (e.ServerRead? ==> asked.choice.Named? && e.call.tool == asked.choice.tool)
    && (e.Round? && cfg.Forced() && asked.choice.Named? ==> OnlyTool(e.receipts, asked.choice.tool))
  }

  ghost predicate EventFollows(cfg: Config, before: seq<Event>, e: Event) {
    if e.Turn? then TurnFollows(cfg, before, e) else WorkFollows(cfg, before, e)
  }

  ghost predicate Follows(cfg: Config, log: seq<Event>) {
    log != [] ==> Follows(cfg, log[..|log| - 1]) && EventFollows(cfg, log[..|log| - 1], log[|log| - 1])
  }

  lemma {:induction false} FollowsSnoc(cfg: Config, log: seq<Event>, e: Event)
    requires Follows(cfg, log) && EventFollows(cfg, log, e)
    ensures Follows(cfg, log + [e])
  {
    assert (log + [e])[..|log|] == log;
  }

  lemma {:induction false} FollowsAt(cfg: Config, log: seq<Event>, k: nat)
    requires Follows(cfg, log) && k < |log|
    ensures Follows(cfg, log[..k]) && EventFollows(cfg, log[..k], log[k])
    decreases |log|
  {
    if k < |log| - 1 {
      assert log[..|log| - 1][..k] == log[..k];
      FollowsAt(cfg, log[..|log| - 1], k);
    }
  }

  ghost predicate RunKept(cfg: Config, log: seq<Event>) {
    && (forall e | e in log :: EventKept(cfg, e))
    && Visible(log)
    && TurnCount(log) <= cfg.MaxSteps() + MAX_RECOVERIES
    && RefusalEndsWork(log)
    && Admitted(History(cfg, log))
    && Follows(cfg, log)
  }

  /** What the outcome says about the last event: the provider's replies and refusals
      end a run right after a turn, a missing forced tool after one that named it, and
      an aborted server-side read after that read. */
  predicate EndsAs(log: seq<Event>, outcome: Outcome) {
    match outcome
    case Answered => log != [] && log[|log| - 1].Turn?
    case EmptyResponse => log != [] && log[|log| - 1].Turn?
    case InvalidResponse => log != [] && log[|log| - 1].Turn?
    case TooManyCalls => log != [] && log[|log| - 1].Turn?
    case UpstreamFailed => log != [] && log[|log| - 1].Turn?
    case BuildFailed => log != [] && log[|log| - 1].Turn?
    case RequiredToolMissing => log != [] && log[|log| - 1].Turn? && log[|log| - 1].choice.Named?
    case Aborted => log != [] && log[|log| - 1].ServerRead?
    case _ => true
  }

  ghost predicate StopKept(cfg: Config, log: seq<Event>, outcome: Outcome) {
    && RunKept(cfg, log)
    && EndsAs(log, outcome)
    && (outcome.Answered? && Plain(cfg.c, cfg.drawing) ==> ChainRead(cfg, log))
  }

  // ---------- the invariant ----------

  ghost predicate MessagesInv(run: Run) {
    WellFormed(run.messages) && forall id | id in CallIds(run.messages) :: id in run.used
  }

  /** `open` counts the turns of the current pass: none at its start, one after its request. */
  ghost predicate LogInv(cfg: Config, run: Run, open: nat) {
    && (forall e | e in run.log :: EventKept(cfg, e))
    && TurnCount(run.log) <= run.step + run.recoveries + open
    && run.recoveries <= MAX_RECOVERIES
    && Admitted(History(cfg, run.log))
  }

  /** Where the run stands with respect to a round in which nothing ran. */
  ghost predicate RefusalInv(run: Run, open: nat) {
    && (!run.finalOnly ==> forall e | e in run.log :: !Refused(e))
    && (run.finalOnly ==> exists i :: 0 <= i < |run.log| && RefusedAt(run.log, i)
                                   && |run.log| - 1 - i <= run.recoveries + open)
  }

  ghost predicate RefusedAt(log: seq<Event>, i: nat)
    requires i < |log|
  {
    && Refused(log[i])
    && (forall j :: 0 <= j < i ==> !Refused(log[j]))
    && (forall j :: i < j < |log| ==> BareTurn(log[j]))
  }

  ghost predicate VisibleInv(run: Run) {
    && Visible(run.log)
    && (run.log != [] && !run.log[|run.log| - 1].Turn? ==>
          var calls := EventCalls(run.log[|run.log| - 1]);
          calls != [] && EndsWith(run.messages, calls))
  }

  ghost predicate ToolsInv(cfg: Config, run: Run) {
    && run.called == Called(run.log)
    && run.succeeded == Succeeded(run.log)
    && run.called - run.succeeded <= Failed(run.log)
    && (forall e | e in History(cfg, run.log) :: e.key.0 in run.called)
    && (run.title ==> run.step == 0 && run.called == {} && !run.finalOnly)
    && (run.title ==> cfg.c.titleNeeded)
  }

  function Missing(chain: seq<ToolName>, called: set<ToolName>): (n: nat)
    ensures n <= |chain|
  {
    if chain == [] then 0 else (if chain[0] in called then 0 else 1) + Missing(chain[1..], called)
  }

  /** Either a chain read has failed, or the steps left before the reserved turn
      suffice for the reads still missing. */
  ghost predicate ChainInv(cfg: Config, run: Run) {
    Plain(cfg.c, cfg.drawing) ==>
      || (exists t | t in cfg.Chain() :: t in Failed(run.log))
      || Missing(cfg.Chain(), run.called) == 0
      || (!run.finalOnly && Missing(cfg.Chain(), run.called) + Extra(run.title) <= cfg.MaxSteps() - 1 - run.step)
  }

  ghost predicate FollowInv(cfg: Config, run: Run, open: nat) {
    && Follows(cfg, run.log)
    && StepFollows(run.log, run.step)
    && (open == 1 ==> run.log != [] && run.log[|run.log| - 1].Turn? && run.log[|run.log| - 1].step == run.step)
  }

  ghost predicate Inv(cfg: Config, run: Run, open: nat) {
    && MessagesInv(run) && VisibleInv(run) && LogInv(cfg, run, open) && RefusalInv(run, open)
    && ToolsInv(cfg, run) && ChainInv(cfg, run) && FollowInv(cfg, run, open)
  }

  /** The request of this pass was made with this choice, and offered tools as the
      state demands. */
  predicate Asked(cfg: Config, run: Run, choice: ToolChoice) {
    run.log != [] &&
    var last := run.log[|run.log| - 1];
    last.Turn? && last.choice == choice && last.toolsOffered == Offered(cfg, run)
  }

  /** A read is missing and none has failed: the step choice is forced. */
  ghost predicate Pending(cfg: Config, run: Run) {
    Plain(cfg.c, cfg.drawing) && Missing(cfg.Chain(), run.called) > 0
    && forall t | t in cfg.Chain() :: t !in Failed(run.log)
  }

  /** Every pass spends a step or one of the two recoveries. */
  predicate Advances(run: Run, next: Run) {
    next.step + next.recoveries == run.step + run.recoveries + 1
  }

  ghost predicate NextKept(cfg: Config, run: Run, next: Next) {
    match next
    case Continue(after) => Inv(cfg, after, 0) && after.step <= cfg.MaxSteps() && Advances(run, after)
    case Stop(log, outcome) => StopKept(cfg, log, outcome)
  }

  // ---------- counting missing reads ----------

  lemma {:induction false} MissingShrinks(chain: seq<ToolName>, called: set<ToolName>, more: set<ToolName>)
    requires called <= more
    ensures Missing(chain, more) <= Missing(chain, called)
    ensures (exists t | t in chain :: t !in called && t in more) ==> Missing(chain, more) < Missing(chain, called)
    decreases |chain|
  {
    if chain != [] {
      MissingShrinks(chain[1..], called, more);
      assert forall t | t in chain :: t == chain[0] || t in chain[1..];
    }
  }

  lemma {:induction false} MissingNone(chain: seq<ToolName>, called: set<ToolName>)
    ensures Missing(chain, called) == 0 <==> forall t | t in chain :: t in called
    decreases |chain|
  {
    if chain != [] {
      MissingNone(chain[1..], called);
      assert chain[0] in chain && (forall t | t in chain[1..] :: t in chain);
      assert forall t | t in chain :: t == chain[0] || t in chain[1..];
    }
  }

  // ---------- a request ----------

  lemma {:induction false} TurnKeepsInv(cfg: Config, run: Run, e: Event)
    requires Inv(cfg, run, 0) && e.Turn? && TurnKept(cfg, e) && (run.finalOnly ==> !e.toolsOffered)
    requires e.messages == run.messages && e.step == run.step && TurnFollows(cfg, run.log, e)
    ensures Inv(cfg, AddTurn(run, e), 1)
  {
    FollowsSnoc(cfg, run.log, e);
    TurnKeepsVisible(run, e);
    TurnKeepsTools(cfg, run, e);
    TurnKeepsRefusal(run, e);
  }

  lemma {:induction false} TurnKeepsTools(cfg: Config, run: Run, e: Event)
    requires LogInv(cfg, run, 0) && ToolsInv(cfg, run) && ChainInv(cfg, run) && e.Turn? && TurnKept(cfg, e)
    ensures LogInv(cfg, AddTurn(run, e), 1) && ToolsInv(cfg, AddTurn(run, e)) && ChainInv(cfg, AddTurn(run, e))
  {
    LogSnoc(cfg, run.log, e);
    HistorySnoc(cfg, run.log, e);
  }

  lemma {:induction false} TurnKeepsVisible(run: Run, e: Event)
    requires VisibleInv(run) && e.Turn? && e.messages == run.messages
    ensures VisibleInv(AddTurn(run, e))
  {
    var log := run.log + [e];
    assert forall k | 0 <= k < |run.log| :: log[k] == run.log[k];
  }

  lemma {:induction false} TurnKeepsRefusal(run: Run, e: Event)
    requires RefusalInv(run, 0) && e.Turn? && (run.finalOnly ==> !e.toolsOffered)
    ensures RefusalInv(AddTurn(run, e), 1)
  {
    var log := run.log + [e];
    if run.finalOnly {
      var i :| 0 <= i < |run.log| && RefusedAt(run.log, i) && |run.log| - 1 - i <= run.recoveries;
      assert forall j | 0 <= j < |run.log| :: log[j] == run.log[j];
      assert RefusedAt(log, i);
    }
  }

  // ---------- compaction ----------

  lemma {:induction false} ContextIsFaithful(cfg: Config, ms: seq<Message>)
    ensures var r := ContextOf(cfg, ms);
            r.Compacted? ==> Compaction.Faithful(ms, r.messages)
                             && Compaction.Bytes(cfg.codec, r.messages) <= CONTEXT_MAX_BYTES
  {
    Compaction.ExpectedIsFaithful(cfg.codec, ms, CONTEXT_TARGET_BYTES);
    Compaction.ExpectedIsFaithful(cfg.codec, ms, CONTEXT_MAX_BYTES);
  }

  lemma {:induction false} CompactionKeepsInv(cfg: Config, run: Run, messages: seq<Message>)
    requires Inv(cfg, run, 0) && Compaction.Faithful(run.messages, messages)
    ensures Inv(cfg, run.(messages := messages), 0)
  {
    CompactionKeepsVisible(run, messages);
  }

  /** Compaction keeps the newest exchange in sight. */
  lemma {:induction false} CompactionKeepsVisible(run: Run, messages: seq<Message>)
    requires VisibleInv(run) && Groups(run.messages).Some? && Compaction.KeepsNewest(run.messages, messages)
    ensures VisibleInv(run.(messages := messages))
  {
    if run.log != [] && !run.log[|run.log| - 1].Turn? {
      EndSurvives(run.messages, messages, EventCalls(run.log[|run.log| - 1]));
    }
    StillVisible(run, messages);
  }

  lemma {:induction false} StillVisible(run: Run, messages: seq<Message>)
    requires VisibleInv(run)
    requires run.log != [] && !run.log[|run.log| - 1].Turn? ==> EndsWith(messages, EventCalls(run.log[|run.log| - 1]))
    ensures VisibleInv(run.(messages := messages))
  {
  }

  lemma {:induction false} EndSurvives(ms: seq<Message>, r: seq<Message>, calls: seq<Call>)
    requires EndsWith(ms, calls) && Groups(ms).Some? && Compaction.KeepsNewest(ms, r)
    ensures EndsWith(r, calls)
  {
    var g := Compaction.NewestGroup(ms);
    var from, at := |ms| - |g|, |ms| - |calls| - 1;
    assert forall i | from <= i < |ms| :: ms[i] == ms[from..][i - from] == g[i - from];
    assert forall i | at < i < |ms| :: ms[i] == ms[at + 1..][i - at - 1];
    assert ms[from].role != Tool && ms[at].role != Tool;
    assert from == at;
    assert g == r[|r| - |g|..];
    assert r[|r| - |calls|..] == g[1..] == ms[at + 1..];
  }

  lemma {:induction false} RecoverKeepsInv(cfg: Config, run: Run, messages: seq<Message>)
    requires Inv(cfg, run, 1) && run.recoveries < MAX_RECOVERIES
    requires WellFormed(messages) && forall id | id in CallIds(messages) :: id in CallIds(run.messages)
    ensures Inv(cfg, Recover(run, messages), 0)
  {
    RecoverKeepsRefusal(run, messages);
  }

  lemma {:induction false} RecoverKeepsRefusal(run: Run, messages: seq<Message>)
    requires RefusalInv(run, 1)
    ensures RefusalInv(Recover(run, messages), 0)
  {
    if run.finalOnly {
      var i :| 0 <= i < |run.log| && RefusedAt(run.log, i) && |run.log| - 1 - i <= run.recoveries + 1;
      assert RefusedAt(Recover(run, messages).log, i);
    }
  }

  lemma {:induction false} SkipKeepsInv(cfg: Config, run: Run)
    requires Inv(cfg, run, 1) && run.title
    ensures Inv(cfg, Skip(run), 0)
  {
  }

  // ---------- work ----------

  /** An executed exchange appended to messages and log. */
  lemma {:induction false} ExchangeKeepsVisible(run: Run, next: Run, head: Message, results: seq<Message>, e: Event)
    requires VisibleInv(run) && run.log != [] && run.log[|run.log| - 1].Turn?
    requires next.log == run.log + [e] && next.messages == run.messages + [head] + results
    requires head.role == Assistant && EventCalls(e) == head.calls != [] && Answers(results, head.calls)
    ensures VisibleInv(next)
  {
    assert forall k | 0 <= k < |run.log| :: next.log[k] == run.log[k];
    assert next.messages[|next.messages| - |head.calls|..] == results;
  }

  /** Failures are remembered. */
  lemma {:induction false} FailedGrows(cfg: Config, run: Run, next: Run, e: Event)
    requires next.log == run.log + [e]
    ensures (exists t | t in cfg.Chain() :: t in Failed(run.log)) ==>
              exists t | t in cfg.Chain() :: t in Failed(next.log)
  {
    LogSnoc(cfg, run.log, e);
  }

  /** The chain part of a pass that executed something. */
  lemma {:induction false} ProgressKeepsChain(cfg: Config, run: Run, next: Run, e: Event)
    requires ChainInv(cfg, run) && next.log == run.log + [e]
    requires next.called >= run.called && next.step == run.step + 1
    requires Pending(cfg, run) ==>
               && !next.finalOnly && !next.title
               && (run.title || exists t | t in cfg.Chain() :: t !in run.called && t in next.called)
    ensures ChainInv(cfg, next)
  {
    FailedGrows(cfg, run, next, e);
    MissingShrinks(cfg.Chain(), run.called, next.called);
  }

  /** Work on top of a turn leaves the log in order. */
  lemma {:induction false} WorkKeepsFollow(cfg: Config, run: Run, next: Run, e: Event)
    requires FollowInv(cfg, run, 1) && !e.Turn? && WorkFollows(cfg, run.log, e)
    requires next.log == run.log + [e] && next.step == run.step + 1
    ensures FollowInv(cfg, next, 0)
  {
    FollowsSnoc(cfg, run.log, e);
  }

  // ---------- a read on the server ----------

  lemma {:induction false} ServerReadKeepsMessages(run: Run, call: Call, content: string, ok: bool)
    requires MessagesInv(run) && call.id != "" && call.id !in run.used
    ensures MessagesInv(AddServerRead(run, call, content, ok))
  {
    var head := Message(Assistant, "", "", [call], "");
    assert Ids(head.calls) == [call.id];
    AppendExchange(run.messages, head, [ToolResult(call, content)]);
  }

  lemma {:induction false} ServerReadKeepsTools(cfg: Config, run: Run, call: Call, content: string, ok: bool)
    requires LogInv(cfg, run, 1) && ToolsInv(cfg, run) && RefusalInv(run, 1) && !run.title && !run.finalOnly
    requires EventKept(cfg, ServerRead(run.step, call, ok))
    ensures var next := AddServerRead(run, call, content, ok);
            LogInv(cfg, next, 0) && ToolsInv(cfg, next) && RefusalInv(next, 0)
  {
    var e := ServerRead(run.step, call, ok);
    LogSnoc(cfg, run.log, e);
    HistorySnoc(cfg, run.log, e);
  }

  lemma {:induction false} ServerReadKeepsInv(cfg: Config, run: Run, call: Call, content: string, ok: bool)
    requires Inv(cfg, run, 1) && !run.title && Asked(cfg, run, Force(call.tool)) && Offered(cfg, run)
    requires FallbackAllowed(call.tool) && call.id != "" && call.id !in run.used
    requires Pending(cfg, run) ==> call.tool in cfg.Chain() && call.tool !in run.called
    ensures Inv(cfg, AddServerRead(run, call, content, ok), 0)
  {
    ServerReadKeepsMessages(run, call, content, ok);
    ServerReadKeepsTools(cfg, run, call, content, ok);
    ServerReadKeepsOrder(cfg, run, call, content, ok);
    ProgressKeepsChain(cfg, run, AddServerRead(run, call, content, ok), ServerRead(run.step, call, ok));
  }

  lemma {:induction false} ServerReadKeepsOrder(cfg: Config, run: Run, call: Call, content: string, ok: bool)
    requires FollowInv(cfg, run, 1) && VisibleInv(run) && WorkFollows(cfg, run.log, ServerRead(run.step, call, ok))
    ensures var next := AddServerRead(run, call, content, ok); FollowInv(cfg, next, 0) && VisibleInv(next)
  {
    var next, e := AddServerRead(run, call, content, ok), ServerRead(run.step, call, ok);
    WorkKeepsFollow(cfg, run, next, e);
    ExchangeKeepsVisible(run, next, Message(Assistant, "", "", [call], ""), [ToolResult(call, content)], e);
  }

  // ---------- a round of tool calls ----------

  lemma {:induction false} ExecutionsCalled(cfg: Config, receipts: seq<Receipt>, e: Execution)
    requires e in Executions(cfg, receipts)
    ensures e.key.0 in RoundCalled(receipts)
    decreases |receipts|
  {
    var r, before := receipts[|receipts| - 1], receipts[..|receipts| - 1];
    assert r in receipts && forall x | x in before :: x in receipts;
    if e in Executions(cfg, before) {
      ExecutionsCalled(cfg, before, e);
    } else {
      assert e in OwnExecution(cfg, r);
    }
  }

  lemma {:induction false} AdmittedSnoc(history: seq<Execution>, e: Execution)
    requires Admitted(history) && Allows(After(history), e.key, e.readOnly)
    ensures Admitted(history + [e])
  {
    var longer := history + [e];
    assert longer[..|history|] == history;
    assert forall i | 0 <= i < |history| :: longer[..i] == history[..i] && longer[i] == history[i];
  }

  /** The first call of the round is of a tool that has not run yet. */
  ghost predicate OpensFresh(cfg: Config, history: seq<Execution>, calls: seq<Call>) {
    calls != [] && !cfg.Blocks(calls[0]) && forall e | e in history :: e.key.0 != calls[0].tool
  }

  /** A first use of a tool always runs. */
  lemma {:induction false} FirstUseAllowed(cfg: Config, history: seq<Execution>, call: Call)
    requires forall e | e in history :: e.key.0 != call.tool
    ensures Allows(After(history), cfg.KeyOf(call), cfg.ReadsOnly(call))
  {
    GuardKnowsExecuted(history, cfg.KeyOf(call));
  }

  ghost predicate BatchKept(cfg: Config, history: seq<Execution>, calls: seq<Call>, receipts: seq<Receipt>) {
    && |receipts| <= |calls| && (forall i :: 0 <= i < |receipts| ==> receipts[i].call == calls[i])
    && ExecutedCount(receipts) <= CALLS_PER_ROUND
    && Admitted(history + Executions(cfg, receipts))
    && (receipts != [] && OpensFresh(cfg, history, calls) ==> receipts[0].verdict.Executed?)
  }

  /** One more call: what runs is what the limit, the block and the guard let through. */
  lemma {:induction false} CallKeepsBatch(
    cfg: Config, history: seq<Execution>, calls: seq<Call>, receipts: seq<Receipt>, t: ToolRun)
    requires BatchKept(cfg, history, calls, receipts) && |receipts| < |calls|
    ensures var before := history + Executions(cfg, receipts);
            var verdict := VerdictOf(cfg, before, calls[|receipts|], ExecutedCount(receipts), t);
            BatchKept(cfg, history, calls, receipts + [Receipt(calls[|receipts|], verdict)])
  {
    var before, call := history + Executions(cfg, receipts), calls[|receipts|];
    var verdict := VerdictOf(cfg, before, call, ExecutedCount(receipts), t);
    OwnIsAdmitted(cfg, before, call, ExecutedCount(receipts), t);
    if receipts == [] {
      assert before == history;
      FirstCallOpens(cfg, history, calls, t);
    }
    BatchGrows(cfg, history, calls, receipts, Receipt(call, verdict));
  }

  lemma {:induction false} BatchGrows(
    cfg: Config, history: seq<Execution>, calls: seq<Call>, receipts: seq<Receipt>, r: Receipt)
    requires BatchKept(cfg, history, calls, receipts) && |receipts| < |calls| && r.call == calls[|receipts|]
    requires Admitted(history + Executions(cfg, receipts) + OwnExecution(cfg, r))
    requires r.verdict.Executed? ==> ExecutedCount(receipts) < CALLS_PER_ROUND
    requires receipts == [] && OpensFresh(cfg, history, calls) ==> r.verdict.Executed?
    ensures BatchKept(cfg, history, calls, receipts + [r])
  {
    HistoryGrows(cfg, history, receipts, r);
  }

  lemma {:induction false} FirstCallOpens(cfg: Config, history: seq<Execution>, calls: seq<Call>, t: ToolRun)
    requires calls != []
    ensures OpensFresh(cfg, history, calls) ==> VerdictOf(cfg, history, calls[0], 0, t).Executed?
  {
    if OpensFresh(cfg, history, calls) {
      FirstUseAllowed(cfg, history, calls[0]);
    }
  }

  lemma {:induction false} OwnIsAdmitted(cfg: Config, history: seq<Execution>, call: Call, executed: nat, t: ToolRun)
    requires Admitted(history)
    ensures Admitted(history + OwnExecution(cfg, Receipt(call, VerdictOf(cfg, history, call, executed, t))))
  {
    var own := OwnExecution(cfg, Receipt(call, VerdictOf(cfg, history, call, executed, t)));
    if own == [] {
      assert history + own == history;
    } else {
      AdmittedSnoc(history, own[0]);
    }
  }

  lemma {:induction false} AnswersGrow(results: seq<Message>, calls: seq<Call>, i: nat, content: string)
    requires i < |calls| && Answers(results, calls[..i])
    ensures Answers(results + [ToolResult(calls[i], content)], calls[..i + 1])
  {
  }

  /** All calls of a response, in order; every one gets a receipt and a result unless
      the run is stopped in between. */
  lemma {:induction false} BatchFromKeeps(
    cfg: Config, history: seq<Execution>, calls: seq<Call>, tools: seq<ToolRun>, done: Batch)
    requires BatchKept(cfg, history, calls, done.receipts) && !done.stop
    requires Answers(done.results, calls[..|done.receipts|])
    ensures var batch := BatchFrom(cfg, history, calls, tools, done);
            && BatchKept(cfg, history, calls, batch.receipts)
            && (!batch.stop ==> |batch.receipts| == |calls| && Answers(batch.results, calls))
    decreases |calls| - |done.receipts|
  {
    var i := |done.receipts|;
    if i < |calls| {
      var t := ToolAt(tools, i);
      CallKeepsBatch(cfg, history, calls, done.receipts, t);
      AnswersGrow(done.results, calls, i, t.content);
      var before := history + Executions(cfg, done.receipts);
      var verdict := VerdictOf(cfg, before, calls[i], ExecutedCount(done.receipts), t);
      if !t.stopBefore && !EndsRun(verdict, t) {
        BatchFromKeeps(cfg, history, calls, tools,
                       Batch(done.receipts + [Receipt(calls[i], verdict)],
                             done.results + [ToolResult(calls[i], t.content)], false));
      }
    } else {
      assert calls[..i] == calls;
    }
  }

  lemma {:induction false} BatchKeeps(cfg: Config, history: seq<Execution>, calls: seq<Call>, tools: seq<ToolRun>)
    requires Admitted(history)
    ensures var batch := BatchOf(cfg, history, calls, tools);
            && BatchKept(cfg, history, calls, batch.receipts)
            && (!batch.stop ==> |batch.receipts| == |calls| && Answers(batch.results, calls))
  {
    assert history + [] == history;
    BatchFromKeeps(cfg, history, calls, tools, Batch([], [], false));
  }

  lemma {:induction false} BatchExtends(
    cfg: Config, history: seq<Execution>, calls: seq<Call>, tools: seq<ToolRun>, done: Batch)
    ensures done.receipts <= BatchFrom(cfg, history, calls, tools, done).receipts
    decreases |calls| - |done.receipts|
  {
    var i := |done.receipts|;
    if i < |calls| {
      BatchExtends(cfg, history, calls, tools, BatchNext(cfg, history, calls, tools, done));
    }
  }

  /** The batch with one call more. */
  function BatchNext(cfg: Config, history: seq<Execution>, calls: seq<Call>, tools: seq<ToolRun>, done: Batch): Batch
    requires |done.receipts| < |calls|
  {
    var i, t := |done.receipts|, ToolAt(tools, |done.receipts|);
    Batch(done.receipts + [ReceiptFor(cfg, history, calls, tools, done.receipts)],
          done.results + [ToolResult(calls[i], t.content)], false)
  }

  /** The verdict on the next call after those already done. */
  function ReceiptFor(
    cfg: Config, history: seq<Execution>, calls: seq<Call>, tools: seq<ToolRun>, done: seq<Receipt>): Receipt
    requires |done| < |calls|
  {
    var call := calls[|done|];
    Receipt(call, VerdictOf(cfg, history + Executions(cfg, done), call, ExecutedCount(done), ToolAt(tools, |done|)))
  }

  /** Every receipt of a round is the verdict on its call after those before it. */
  lemma {:induction false} ReceiptAt(
    cfg: Config, history: seq<Execution>, calls: seq<Call>, tools: seq<ToolRun>, done: Batch, i: nat)
    requires |done.receipts| <= i < |BatchFrom(cfg, history, calls, tools, done).receipts|
    ensures var receipts := BatchFrom(cfg, history, calls, tools, done).receipts;
            i < |calls| && receipts[i] == ReceiptFor(cfg, history, calls, tools, receipts[..i])
    decreases |calls| - |done.receipts|
  {
    var next := BatchNext(cfg, history, calls, tools, done);
    BatchExtends(cfg, history, calls, tools, next);
    var receipts := BatchFrom(cfg, history, calls, tools, done).receipts;
    if i > |done.receipts| {
      ReceiptAt(cfg, history, calls, tools, next, i);
    } else {
      assert receipts[..i] == done.receipts;
    }
  }

  /** A call of a tool that has not run yet, neither before the round nor in it, runs
      unless it is blocked or comes after the round's limit. */
  lemma {:induction false} FirstUseRuns(
    cfg: Config, history: seq<Execution>, calls: seq<Call>, tools: seq<ToolRun>, i: nat)
    requires i < |BatchOf(cfg, history, calls, tools).receipts| && i < |calls| && !cfg.Blocks(calls[i])
    requires var done := BatchOf(cfg, history, calls, tools).receipts[..i];
             && ExecutedCount(done) < CALLS_PER_ROUND
             && forall e | e in history + Executions(cfg, done) :: e.key.0 != calls[i].tool
    ensures BatchOf(cfg, history, calls, tools).receipts[i].verdict.Executed?
  {
    var receipts := BatchOf(cfg, history, calls, tools).receipts;
    ReceiptAt(cfg, history, calls, tools, Batch([], [], false), i);
    FirstUseAllowed(cfg, history + Executions(cfg, receipts[..i]), calls[i]);
  }

  lemma {:induction false} RoundKeepsMessages(run: Run, head: Message, receipts: seq<Receipt>, results: seq<Message>)
    requires MessagesInv(run) && head.role == Assistant && Answers(results, head.calls)
    requires Distinct(Ids(head.calls)) && "" !in Ids(head.calls) && forall id | id in Ids(head.calls) :: id !in run.used
    ensures MessagesInv(AddRound(run, head, receipts, results))
  {
    AppendExchange(run.messages, head, results);
  }

  /** What a round must satisfy. */
  ghost predicate RoundFits(cfg: Config, run: Run, calls: seq<Call>, receipts: seq<Receipt>) {
    && Offered(cfg, run) && |calls| <= CALLS_PER_RESPONSE
    && BatchKept(cfg, History(cfg, run.log), calls, receipts)
    && (run.title ==> |calls| == 1 && calls[0].tool == SetTitle)
    && (Pending(cfg, run) && !run.title ==>
          |calls| == 1 && calls[0].tool in cfg.Chain() && calls[0].tool !in run.called)
    && WorkFollows(cfg, run.log, Round(run.step, receipts))
  }

  lemma {:induction false} RoundKeepsLog(cfg: Config, run: Run, calls: seq<Call>, receipts: seq<Receipt>)
    requires LogInv(cfg, run, 1) && ToolsInv(cfg, run) && RoundFits(cfg, run, calls, receipts)
    ensures EventKept(cfg, Round(run.step, receipts))
    ensures Admitted(History(cfg, run.log + [Round(run.step, receipts)]))
    ensures forall e | e in History(cfg, run.log + [Round(run.step, receipts)]) ::
              e.key.0 in run.called + RoundCalled(receipts)
  {
    HistorySnoc(cfg, run.log, Round(run.step, receipts));
    forall e | e in Executions(cfg, receipts) ensures e.key.0 in RoundCalled(receipts) {
      ExecutionsCalled(cfg, receipts, e);
    }
  }

  lemma {:induction false} RoundKeepsRefusal(run: Run, head: Message, receipts: seq<Receipt>, results: seq<Message>)
    requires RefusalInv(run, 1) && !run.finalOnly
    ensures RefusalInv(AddRound(run, head, receipts, results), 0)
  {
    var log := run.log + [Round(run.step, receipts)];
    if ExecutedCount(receipts) == 0 {
      assert forall j | 0 <= j < |run.log| :: log[j] == run.log[j] && run.log[j] in run.log;
      assert RefusedAt(log, |run.log|);
    }
  }

  lemma {:induction false} LoneReceipt(cfg: Config, r: Receipt)
    requires r.verdict.Executed?
    ensures ExecutedCount([r]) == 1 && RoundCalled([r]) == {r.call.tool}
    ensures RoundSucceeded([r]) == if r.verdict.ok then {r.call.tool} else {}
  {
    assert [] + [r] == [r];
    ReceiptsSnoc(cfg, [], r);
  }

  /** A round forced by a pending title or a pending read runs the forced tool. */
  lemma {:induction false} ForcedCallRuns(cfg: Config, run: Run, call: Call, receipts: seq<Receipt>)
    requires ToolsInv(cfg, run) && BatchKept(cfg, History(cfg, run.log), [call], receipts) && |receipts| == 1
    requires call.tool !in run.called && !IsAdministratorTool(call.tool)
    ensures ExecutedCount(receipts) == 1 && RoundCalled(receipts) == {call.tool}
  {
    var r := receipts[0];
    assert OpensFresh(cfg, History(cfg, run.log), [call]);
    assert r.call == call && r.verdict.Executed?;
    assert receipts == [r];
    LoneReceipt(cfg, r);
  }

  lemma {:induction false} RoundKeepsChain(
    cfg: Config, run: Run, head: Message, receipts: seq<Receipt>, results: seq<Message>)
    requires ToolsInv(cfg, run) && ChainInv(cfg, run) && RoundFits(cfg, run, head.calls, receipts)
    requires |receipts| == |head.calls|
    ensures ChainInv(cfg, AddRound(run, head, receipts, results))
    ensures !AddRound(run, head, receipts, results).title
  {
    var next := AddRound(run, head, receipts, results);
    if Pending(cfg, run) || run.title {
      PendingCallRuns(cfg, run, head.calls, receipts);
    }
    ProgressKeepsChain(cfg, run, next, Round(run.step, receipts));
  }

  lemma {:induction false} PendingCallRuns(cfg: Config, run: Run, calls: seq<Call>, receipts: seq<Receipt>)
    requires ToolsInv(cfg, run) && BatchKept(cfg, History(cfg, run.log), calls, receipts) && |receipts| == |calls| == 1
    requires if run.title then calls[0].tool == SetTitle
             else calls[0].tool in cfg.Chain() && calls[0].tool !in run.called
    ensures ExecutedCount(receipts) == 1 && RoundCalled(receipts) == {calls[0].tool}
  {
    var call := calls[0];
    assert calls == [call];
    if !run.title {
      ChainAllowed(cfg.c, cfg.drawing, call.tool);
    }
    ForcedCallRuns(cfg, run, call, receipts);
  }

  lemma {:induction false} RoundKeepsTools(
    cfg: Config, run: Run, head: Message, receipts: seq<Receipt>, results: seq<Message>)
    requires LogInv(cfg, run, 1) && ToolsInv(cfg, run) && RoundFits(cfg, run, head.calls, receipts)
    requires !AddRound(run, head, receipts, results).title
    ensures ToolsInv(cfg, AddRound(run, head, receipts, results))
    ensures LogInv(cfg, AddRound(run, head, receipts, results), 0)
  {
    RoundKeepsLog(cfg, run, head.calls, receipts);
    LogSnoc(cfg, run.log, Round(run.step, receipts));
  }

  lemma {:induction false} RoundKeepsInv(
    cfg: Config, run: Run, head: Message, receipts: seq<Receipt>, results: seq<Message>)
    requires Inv(cfg, run, 1) && RoundFits(cfg, run, head.calls, receipts) && |receipts| == |head.calls| > 0
    requires head.role == Assistant && Answers(results, head.calls)
    requires Distinct(Ids(head.calls)) && "" !in Ids(head.calls) && forall id | id in Ids(head.calls) :: id !in run.used
    ensures Inv(cfg, AddRound(run, head, receipts, results), 0)
  {
    RoundKeepsMessages(run, head, receipts, results);
    RoundKeepsOrder(cfg, run, head, receipts, results);
    RoundKeepsRefusal(run, head, receipts, results);
    RoundKeepsChain(cfg, run, head, receipts, results);
    RoundKeepsTools(cfg, run, head, receipts, results);
  }

  lemma {:induction false} RoundKeepsOrder(
    cfg: Config, run: Run, head: Message, receipts: seq<Receipt>, results: seq<Message>)
    requires FollowInv(cfg, run, 1) && VisibleInv(run) && WorkFollows(cfg, run.log, Round(run.step, receipts))
    requires |receipts| == |head.calls| > 0 && forall i :: 0 <= i < |receipts| ==> receipts[i].call == head.calls[i]
    requires head.role == Assistant && Answers(results, head.calls)
    ensures var next := AddRound(run, head, receipts, results); FollowInv(cfg, next, 0) && VisibleInv(next)
  {
    var next, e := AddRound(run, head, receipts, results), Round(run.step, receipts);
    WorkKeepsFollow(cfg, run, next, e);
    assert EventCalls(e) == head.calls;
    ExchangeKeepsVisible(run, next, head, results, e);
  }

  // ---------- ending a run ----------

  lemma {:induction false} StopKeepsRun(cfg: Config, run: Run, open: nat)
    requires Visible(run.log) && LogInv(cfg, run, open) && RefusalInv(run, open) && open <= 1
    requires run.step + open <= cfg.MaxSteps() && Follows(cfg, run.log)
    ensures RunKept(cfg, run.log)
  {
    forall k | 0 <= k < |run.log| - 1 && Refused(run.log[k])
      ensures |run.log| - 1 - k <= MAX_RECOVERIES + 1 && forall j :: k < j < |run.log| ==> BareTurn(run.log[j])
    {
      OneRefusal(run, open, k);
    }
  }

  lemma {:induction false} OneRefusal(run: Run, open: nat, k: nat)
    requires RefusalInv(run, open) && k < |run.log| && Refused(run.log[k])
    ensures |run.log| - 1 - k <= run.recoveries + open && forall j :: k < j < |run.log| ==> BareTurn(run.log[j])
  {
    assert run.log[k] in run.log;
    var i :| 0 <= i < |run.log| && RefusedAt(run.log, i) && |run.log| - 1 - i <= run.recoveries + open;
    assert i == k;
  }

  /** Stopping in the middle of a round still leaves a kept log. */
  lemma {:induction false} CutRoundKeepsRun(cfg: Config, run: Run, calls: seq<Call>, receipts: seq<Receipt>)
    requires LogInv(cfg, run, 1) && RefusalInv(run, 1) && ToolsInv(cfg, run) && RoundFits(cfg, run, calls, receipts)
    requires Visible(run.log) && FollowInv(cfg, run, 1)
    ensures RunKept(cfg, run.log + [Round(run.step, receipts)])
  {
    var e := Round(run.step, receipts);
    FollowsSnoc(cfg, run.log, e);
    RoundKeepsLog(cfg, run, calls, receipts);
    LogSnoc(cfg, run.log, e);
    CutRoundStaysVisible(run.log, e);
    CutRoundEndsWork(run, e);
  }

  lemma {:induction false} CutRoundStaysVisible(log: seq<Event>, e: Event)
    requires Visible(log) && log != [] && log[|log| - 1].Turn?
    ensures Visible(log + [e])
  {
    assert forall k | 0 <= k < |log| :: (log + [e])[k] == log[k];
  }

  lemma {:induction false} CutRoundEndsWork(run: Run, e: Event)
    requires RefusalInv(run, 1) && !run.finalOnly
    ensures RefusalEndsWork(run.log + [e])
  {
    assert forall k | 0 <= k < |run.log| :: (run.log + [e])[k] == run.log[k] && run.log[k] in run.log;
  }

  lemma {:induction false} AnswerKeepsChain(cfg: Config, run: Run)
    requires ToolsInv(cfg, run) && Plain(cfg.c, cfg.drawing) && !Pending(cfg, run)
    ensures ChainRead(cfg, run.log)
  {
    MissingNone(cfg.Chain(), run.called);
  }

  // ---------- what the choice of a pass says about its state ----------

  ghost predicate Forcing(cfg: Config, run: Run, choice: ToolChoice) {
    && (choice.Named? ==> Offered(cfg, run) && !choice.responsesShape)
    && (run.title ==> choice == Force(SetTitle))
    && (choice.Named? && choice.tool == SetTitle ==> run.title)
    && (Pending(cfg, run) && !run.title ==> choice.Named? && choice.tool in cfg.Chain() && choice.tool !in run.called)
  }

  lemma {:induction false} TitleIsForced(c: UserContext, called: set<ToolName>, succeeded: set<ToolName>, drawing: bool)
    requires c.titleNeeded
    ensures StepChoice(c, called, succeeded, drawing) == Force(SetTitle)
  {
  }

  lemma {:induction false} NextInMember(chain: seq<ToolName>, called: set<ToolName>, succeeded: set<ToolName>)
    ensures NextIn(chain, called, succeeded).Read? ==> NextIn(chain, called, succeeded).tool in chain
    decreases |chain|
  {
    if chain != [] {
      NextInMember(chain[1..], called, succeeded);
    }
  }

  lemma {:induction false} OnlyTitleForcesTitle(
    c: UserContext, called: set<ToolName>, succeeded: set<ToolName>, drawing: bool)
    requires !c.titleNeeded
    ensures var choice := StepChoice(c, called, succeeded, drawing); !(choice.Named? && choice.tool == SetTitle)
  {
    var activity := Pick(ActivityLinks(c, drawing));
    NextInMember(activity, called, succeeded);
    PickMember(ActivityLinks(c, drawing), SetTitle);
    NextInMember(Chain(c, drawing), called, succeeded);
    if SetTitle in Chain(c, drawing) {
      ChainAllowed(c, drawing, SetTitle);
    }
  }

  lemma {:induction false} NamedPlainly(c: UserContext, called: set<ToolName>, succeeded: set<ToolName>, drawing: bool)
    ensures var choice := StepChoice(c, called, succeeded, drawing); choice.Named? ==> !choice.responsesShape
  {
  }

  lemma {:induction false} TitleKeepsPlain(c: UserContext, drawing: bool, title: bool)
    ensures Plain(c.(titleNeeded := title), drawing) == Plain(c, drawing)
  {
  }

  lemma {:induction false} PendingMeans(cfg: Config, run: Run)
    requires ToolsInv(cfg, run) && Pending(cfg, run) && !run.title
    ensures var c := Context(cfg, run);
            && !c.titleNeeded && Plain(c, cfg.drawing) && ReadChain.Chain(c, cfg.drawing) == cfg.Chain()
            && NoFailure(cfg.Chain(), run.called, run.succeeded) && exists t :: t in cfg.Chain() && t !in run.called
  {
    TitleChangesNoChain(cfg.c, cfg.drawing, false);
    TitleKeepsPlain(cfg.c, cfg.drawing, false);
    MissingNone(cfg.Chain(), run.called);
  }

  lemma {:induction false} PendingIsOffered(cfg: Config, run: Run)
    requires ChainInv(cfg, run) && Pending(cfg, run)
    ensures Offered(cfg, run)
  {
  }

  /** While a read is missing and none has failed, an uncalled read is named. */
  lemma {:induction false} PendingIsForced(cfg: Config, run: Run, c: UserContext, choice: ToolChoice)
    requires c == Context(cfg, run) && choice == StepChoice(c, run.called, run.succeeded, cfg.drawing)
    requires !c.titleNeeded && Plain(c, cfg.drawing) && ReadChain.Chain(c, cfg.drawing) == cfg.Chain()
    requires NoFailure(cfg.Chain(), run.called, run.succeeded) && exists t :: t in cfg.Chain() && t !in run.called
    ensures choice.Named? && choice.tool in cfg.Chain() && choice.tool !in run.called
  {
    ChainForced(c, run.called, run.succeeded, cfg.drawing);
  }

  lemma {:induction false} TitleIsOffered(cfg: Config, run: Run)
    requires ToolsInv(cfg, run) && run.title
    ensures Offered(cfg, run)
  {
    assert cfg.Forced() && cfg.MaxSteps() >= 2;
  }

  /** In every state the request's choice forces the title first and then a missing read. */
  lemma {:induction false} ChoiceForces(cfg: Config, run: Run)
    requires ToolsInv(cfg, run) && ChainInv(cfg, run)
    ensures Forcing(cfg, run, Choice(cfg, run))
  {
    var c := Context(cfg, run);
    var choice := StepChoice(c, run.called, run.succeeded, cfg.drawing);
    NamedPlainly(c, run.called, run.succeeded, cfg.drawing);
    if run.title {
      TitleIsOffered(cfg, run);
      TitleIsForced(c, run.called, run.succeeded, cfg.drawing);
    } else {
      OnlyTitleForcesTitle(c, run.called, run.succeeded, cfg.drawing);
      if Pending(cfg, run) {
        PendingMeans(cfg, run);
        PendingIsOffered(cfg, run);
        PendingIsForced(cfg, run, c, choice);
      }
    }
  }

  /** A turn without tools comes only when no read is pending. */
  lemma {:induction false} BareMeansRead(cfg: Config, run: Run)
    requires ToolsInv(cfg, run) && ChainInv(cfg, run) && !Offered(cfg, run) && Plain(cfg.c, cfg.drawing)
    ensures ChainRead(cfg, run.log)
  {
    if Pending(cfg, run) {
      PendingIsOffered(cfg, run);
    }
    AnswerKeepsChain(cfg, run);
  }

  // ---------- one pass ----------

  lemma {:induction false} RelayIsBounded(cfg: Config, run: Run, input: Input)
    ensures var sent := RelayOf(cfg, run, input).sent;
            |sent| <= MAX_RELAY_ATTEMPTS && forall s | s in sent :: Adapts(Choice(cfg, run), s)
  {
    ChoicesDescend(Choice(cfg, run), false, false, [input.first, input.second, input.third]);
  }

  lemma {:induction false} AskKeeps(cfg: Config, run: Run, input: Input)
    requires Inv(cfg, run, 0) && run.step < cfg.MaxSteps()
    requires Compaction.Bytes(cfg.codec, run.messages) <= CONTEXT_MAX_BYTES
    ensures var asked := AskedRun(cfg, run, input);
            Inv(cfg, asked, 1) && Asked(cfg, asked, Choice(cfg, run)) && Forcing(cfg, asked, Choice(cfg, run))
  {
    var offered, choice, sent := Offered(cfg, run), Choice(cfg, run), RelayOf(cfg, run, input).sent;
    RelayIsBounded(cfg, run, input);
    ChoiceForces(cfg, run);
    if !offered && Plain(cfg.c, cfg.drawing) {
      BareMeansRead(cfg, run);
    }
    AskWith(cfg, run, Turn(run.step, run.messages, offered, choice, sent, run.title));
  }

  lemma {:induction false} AskWith(cfg: Config, run: Run, e: Event)
    requires Inv(cfg, run, 0) && run.step < cfg.MaxSteps() && e.Turn? && e.step == run.step
    requires e.messages == run.messages
    requires Compaction.Bytes(cfg.codec, run.messages) <= CONTEXT_MAX_BYTES
    requires |e.sent| <= MAX_RELAY_ATTEMPTS && forall s | s in e.sent :: Adapts(e.choice, s)
    requires e.toolsOffered == Offered(cfg, run) && e.choice == Choice(cfg, run) && e.title == run.title
    requires !Offered(cfg, run) && Plain(cfg.c, cfg.drawing) ==> ChainRead(cfg, run.log)
    requires Forcing(cfg, run, e.choice)
    ensures var asked := AddTurn(run, e);
            Inv(cfg, asked, 1) && Asked(cfg, asked, e.choice) && Forcing(cfg, asked, e.choice)
  {
    TurnIsKept(cfg, run, e);
    TurnKeepsInv(cfg, run, e);
    TurnKeepsForcing(cfg, run, e, e.choice);
  }

  lemma {:induction false} TurnIsKept(cfg: Config, run: Run, e: Event)
    requires Inv(cfg, run, 0) && run.step < cfg.MaxSteps() && e.Turn? && e.step == run.step
    requires e.messages == run.messages
    requires Compaction.Bytes(cfg.codec, run.messages) <= CONTEXT_MAX_BYTES
    requires |e.sent| <= MAX_RELAY_ATTEMPTS && forall s | s in e.sent :: Adapts(e.choice, s)
    requires e.toolsOffered == Offered(cfg, run) && e.choice == Choice(cfg, run) && e.title == run.title
    requires !Offered(cfg, run) && Plain(cfg.c, cfg.drawing) ==> ChainRead(cfg, run.log)
    ensures TurnKept(cfg, e) && TurnFollows(cfg, run.log, e)
  {
  }

  /** A request changes nothing that a choice is judged by. */
  lemma {:induction false} TurnKeepsForcing(cfg: Config, run: Run, e: Event, choice: ToolChoice)
    requires e.Turn? && Forcing(cfg, run, choice)
    ensures Forcing(cfg, AddTurn(run, e), choice)
  {
    LogSnoc(cfg, run.log, e);
  }

  /** What a reply or a refusal is judged under. */
  ghost predicate Open(cfg: Config, run: Run, choice: ToolChoice) {
    Inv(cfg, run, 1) && run.step < cfg.MaxSteps() && Asked(cfg, run, choice) && Forcing(cfg, run, choice)
  }

  lemma {:induction false} ServerCallIsNew(run: Run, tool: ToolName)
    ensures var call := Normalized([ServerCall(tool, run.step)], run.step, run.used)[0];
            call.tool == tool && call.id != "" && call.id !in run.used
  {
    var made := [ServerCall(tool, run.step)];
    var calls := Normalized(made, run.step, run.used);
    NormalizedIsRepaired(made, run.step, run.used);
    assert Ids(calls)[0] == calls[0].id;
  }

  lemma {:induction false} ServerReadKeeps(cfg: Config, run: Run, choice: ToolChoice, input: Input)
    requires Open(cfg, run, choice) && choice.Named? && choice.tool != SetTitle && FallbackAllowed(choice.tool)
    ensures NextKept(cfg, run, ServerReadOf(run, choice.tool, input))
  {
    var call := Normalized([ServerCall(choice.tool, run.step)], run.step, run.used)[0];
    ServerCallIsNew(run, choice.tool);
    ReadCallKeeps(cfg, run, choice, call, input.server);
  }

  lemma {:induction false} ReadCallKeeps(cfg: Config, run: Run, choice: ToolChoice, call: Call, server: ToolRun)
    requires Open(cfg, run, choice) && choice == Force(call.tool) && call.tool != SetTitle && FallbackAllowed(call.tool)
    requires call.id != "" && call.id !in run.used
    ensures var after := AddServerRead(run, call, server.content, server.ok);
            NextKept(cfg, run, Continue(after)) && NextKept(cfg, run, Stop(after.log, Aborted))
  {
    ServerReadKeepsInv(cfg, run, call, server.content, server.ok);
    StopKeepsRun(cfg, AddServerRead(run, call, server.content, server.ok), 0);
  }

  lemma {:induction false} ShrinkKeeps(cfg: Config, run: Run)
    requires Inv(cfg, run, 1) && run.recoveries < MAX_RECOVERIES && Smaller(cfg, run).Compacted?
    ensures Inv(cfg, Recover(run, Smaller(cfg, run).messages), 0)
    ensures Compaction.Bytes(cfg.codec, Smaller(cfg, run).messages) <= Compaction.Bytes(cfg.codec, run.messages) * 2 / 3
  {
    Compaction.ExpectedIsFaithful(cfg.codec, run.messages, Compaction.Bytes(cfg.codec, run.messages) * 2 / 3);
    RecoverKeepsInv(cfg, run, Smaller(cfg, run).messages);
  }

  lemma {:induction false} RefusedKeeps(cfg: Config, run: Run, choice: ToolChoice, relayed: Relayed, input: Input)
    requires Open(cfg, run, choice)
    ensures NextKept(cfg, run, RefusedOf(cfg, run, choice, relayed, input))
  {
    StopKeepsRun(cfg, run, 1);
    if Shrinks(cfg, run, relayed) {
      ShrinkKeeps(cfg, run);
    } else if choice.Named? && relayed.body.namedUnsupported {
      if choice.tool == SetTitle {
        SkipKeepsInv(cfg, run);
      } else if FallbackAllowed(choice.tool) {
        ServerReadKeeps(cfg, run, choice, input);
      }
    }
  }

  lemma {:induction false} AnswerKeeps(cfg: Config, run: Run, input: Input)
    requires Inv(cfg, run, 1) && run.step < cfg.MaxSteps() && !Pending(cfg, run)
    ensures NextKept(cfg, run, AnswerOf(run, input))
  {
    StopKeepsRun(cfg, run, 1);
    if Plain(cfg.c, cfg.drawing) {
      AnswerKeepsChain(cfg, run);
    }
  }

  lemma {:induction false} IgnoredTitleKeeps(cfg: Config, run: Run, body: Body, input: Input)
    requires Inv(cfg, run, 1) && run.step < cfg.MaxSteps() && run.title
    ensures NextKept(cfg, run, IgnoredTitleOf(cfg, run, body, input))
  {
    var choice := StepChoice(cfg.c.(titleNeeded := false), run.called, run.succeeded, cfg.drawing);
    SkipKeeps(cfg, run);
    if !choice.Named? {
      UnforcedMeansNotPending(cfg, run, choice);
      AnswerKeeps(cfg, run, input);
    }
  }

  lemma {:induction false} SkipKeeps(cfg: Config, run: Run)
    requires Inv(cfg, run, 1) && run.step < cfg.MaxSteps() && run.title
    ensures NextKept(cfg, run, Continue(Skip(run))) && NextKept(cfg, run, Stop(run.log, StreamFailed))
  {
    SkipKeepsInv(cfg, run);
    StopKeepsRun(cfg, run, 1);
  }

  lemma {:induction false} UnforcedMeansNotPending(cfg: Config, run: Run, choice: ToolChoice)
    requires ToolsInv(cfg, run) && run.title && !choice.Named?
    requires choice == StepChoice(cfg.c.(titleNeeded := false), run.called, run.succeeded, cfg.drawing)
    ensures !Pending(cfg, run)
  {
    var untitled := run.(title := false);
    if Pending(cfg, run) {
      PendingMeans(cfg, untitled);
      PendingIsForced(cfg, untitled, cfg.c.(titleNeeded := false), choice);
    }
  }

  /** The calls a round makes, by the choice it answers. */
  lemma {:induction false} RoundIsFit(cfg: Config, run: Run, choice: ToolChoice, body: Body, receipts: seq<Receipt>)
    requires Open(cfg, run, choice) && Offered(cfg, run) && 0 < |body.calls| <= CALLS_PER_RESPONSE
    requires cfg.Forced() && choice.Named? ==> CallsOnly(body.calls, choice.tool)
    requires BatchKept(cfg, History(cfg, run.log), HeadOf(run, body).calls, receipts)
    ensures RoundFits(cfg, run, HeadOf(run, body).calls, receipts)
  {
    NormalizedIsRepaired(body.calls, run.step, run.used);
    ForcedWhenPending(cfg, run);
  }

  lemma {:induction false} ForcedWhenPending(cfg: Config, run: Run)
    ensures Pending(cfg, run) ==> cfg.Forced()
    ensures ToolsInv(cfg, run) && run.title ==> cfg.Forced()
  {
  }

  lemma {:induction false} RoundKeeps(cfg: Config, run: Run, choice: ToolChoice, body: Body, input: Input)
    requires Open(cfg, run, choice) && Offered(cfg, run) && 0 < |body.calls| <= CALLS_PER_RESPONSE
    requires cfg.Forced() && choice.Named? ==> CallsOnly(body.calls, choice.tool)
    ensures NextKept(cfg, run, RoundOf(cfg, run, body, input))
  {
    var head, history := HeadOf(run, body), History(cfg, run.log);
    var batch := BatchOf(cfg, history, head.calls, input.tools);
    BatchKeeps(cfg, history, head.calls, input.tools);
    RoundIsFit(cfg, run, choice, body, batch.receipts);
    if batch.stop {
      CutRoundKeepsRun(cfg, run, head.calls, batch.receipts);
    } else {
      NormalizedIsRepaired(body.calls, run.step, run.used);
      RoundKeepsInv(cfg, run, head, batch.receipts, batch.results);
    }
  }

  lemma {:induction false} RepliedKeeps(cfg: Config, run: Run, choice: ToolChoice, body: Body, input: Input)
    requires Open(cfg, run, choice)
    ensures NextKept(cfg, run, RepliedOf(cfg, run, choice, body, input))
  {
    OpenStops(cfg, run, choice);
    if body.valid {
      if choice.Named? && choice.tool == SetTitle && !CallsOnly(body.calls, SetTitle) {
        IgnoredTitleKeeps(cfg, run, body, input);
      } else if !(cfg.Forced() && choice.Named? && !CallsOnly(body.calls, choice.tool)) {
        CallsKeep(cfg, run, choice, body, input);
      }
    }
  }

  /** An answer or a round, once the named tool, if one was forced, is the one called. */
  lemma {:induction false} CallsKeep(cfg: Config, run: Run, choice: ToolChoice, body: Body, input: Input)
    requires Open(cfg, run, choice) && (cfg.Forced() && choice.Named? ==> CallsOnly(body.calls, choice.tool))
    ensures NextKept(cfg, run, CallsOf(cfg, run, body, input))
  {
    OpenStops(cfg, run, choice);
    if body.calls == [] {
      ForcedWhenPending(cfg, run);
      AnswerKeeps(cfg, run, input);
    } else if Workable(cfg, run, body) {
      RoundKeeps(cfg, run, choice, body, input);
    }
  }

  /** Calls that are neither too late nor too many. */
  predicate Workable(cfg: Config, run: Run, body: Body) {
    && (cfg.settings.loopEnabled || cfg.Forced()) && run.step < cfg.MaxSteps() - 1 && !run.finalOnly
    && 0 < |body.calls| <= CALLS_PER_RESPONSE
  }

  lemma {:induction false} AskedKeeps(cfg: Config, run: Run, input: Input)
    requires Inv(cfg, run, 0) && run.step < cfg.MaxSteps()
    requires Compaction.Bytes(cfg.codec, run.messages) <= CONTEXT_MAX_BYTES
    ensures NextKept(cfg, run, AskedOf(cfg, run, input))
  {
    AskKeeps(cfg, run, input);
    ReplyKeeps(cfg, run, AskedRun(cfg, run, input), Choice(cfg, run), RelayOf(cfg, run, input), input);
  }

  lemma {:induction false} ReplyKeeps(
    cfg: Config, run: Run, asked: Run, choice: ToolChoice, relayed: Relayed, input: Input)
    requires Open(cfg, asked, choice) && asked.step == run.step && asked.recoveries == run.recoveries
    ensures NextKept(cfg, run, ReplyOf(cfg, asked, choice, relayed, input))
  {
    OpenStops(cfg, asked, choice);
    if IsSuccess(relayed.status) {
      RepliedKeeps(cfg, asked, choice, relayed.body, input);
    } else {
      RefusedKeeps(cfg, asked, choice, relayed, input);
    }
    SameSpend(cfg, asked, run, ReplyOf(cfg, asked, choice, relayed, input));
  }

  lemma {:induction false} SameSpend(cfg: Config, a: Run, b: Run, next: Next)
    requires NextKept(cfg, a, next) && a.step == b.step && a.recoveries == b.recoveries
    ensures NextKept(cfg, b, next)
  {
  }

  /** A run may stop right after its request. */
  lemma {:induction false} OpenStops(cfg: Config, run: Run, choice: ToolChoice)
    requires Open(cfg, run, choice)
    ensures RunKept(cfg, run.log) && run.log != [] && run.log[|run.log| - 1].Turn?
    ensures run.log[|run.log| - 1].choice == choice
  {
    StopKeepsRun(cfg, run, 1);
  }

  /** One pass keeps the invariant and spends a step or one of two recoveries. */
  lemma {:induction false} PassKeeps(cfg: Config, run: Run, input: Input)
    requires Inv(cfg, run, 0) && run.step < cfg.MaxSteps()
    ensures NextKept(cfg, run, PassOf(cfg, run, input))
  {
    StopKeepsRun(cfg, run, 0);
    ContextIsFaithful(cfg, run.messages);
    var context := ContextOf(cfg, run.messages);
    if context.Compacted? {
      CompactionKeepsInv(cfg, run, context.messages);
      AskedKeeps(cfg, run.(messages := context.messages), input);
    }
  }

  // ---------- whole runs ----------

  lemma {:induction false} RunKeeps(cfg: Config, run: Run, inputs: seq<Input>)
    requires Inv(cfg, run, 0) && run.step <= cfg.MaxSteps()
    ensures var (log, outcome) := RunFrom(cfg, run, inputs); StopKept(cfg, log, outcome)
    decreases |inputs|
  {
    StopKeepsRun(cfg, run, 0);
    if run.step < cfg.MaxSteps() && inputs != [] {
      PassKeeps(cfg, run, inputs[0]);
      var next := PassOf(cfg, run, inputs[0]);
      if next.Continue? {
        RunKeeps(cfg, next.run, inputs[1..]);
      }
    }
  }

  lemma {:induction false} StartKeepsInv(cfg: Config, messages: seq<Message>)
    requires WellFormed(messages)
    ensures Inv(cfg, Start(cfg, messages), 0)
  {
    assert Missing(cfg.Chain(), {}) <= |cfg.Chain()|;
  }

  /** Every run over a well-formed conversation, whatever the provider and the tools do
      and wherever it is interrupted. Each upstream request is well formed, fits the
      context limit, shows the work before it and makes the choice that work calls
      for; there are at most two turns more than steps, of at most three relay calls
      each; work answers a turn that offered tools and, where tools are forced, is the
      tool that turn named; a round runs at most four tools, none in the reserved last
      turn and none after a round in which all were refused; the guard admitted every
      execution. A plain request gets a turn without tools, and an answer, only after
      all reads of its chain or a failed one. */
  lemma {:induction false} EveryRunIsKept(cfg: Config, messages: seq<Message>, inputs: seq<Input>)
    requires WellFormed(messages)
    ensures var (log, outcome) := AgentRun(cfg, messages, inputs); StopKept(cfg, log, outcome)
  {
    var context := ContextOf(cfg, messages);
    ContextIsFaithful(cfg, messages);
    if context.Compacted? {
      StartKeepsInv(cfg, context.messages);
      RunKeeps(cfg, Start(cfg, context.messages), inputs);
    }
  }

  /** The loop ends by itself: beyond one input per step and recovery nothing is read. */
  lemma {:induction false} LateInputsAreIgnored(cfg: Config, run: Run, inputs: seq<Input>, more: seq<Input>)
    requires Inv(cfg, run, 0) && run.step <= cfg.MaxSteps()
    requires |inputs| >= cfg.MaxSteps() + MAX_RECOVERIES - run.step - run.recoveries
    ensures RunFrom(cfg, run, inputs + more) == RunFrom(cfg, run, inputs)
    decreases |inputs|
  {
    if run.step < cfg.MaxSteps() {
      assert (inputs + more)[0] == inputs[0] && (inputs + more)[1..] == inputs[1..] + more;
      PassKeeps(cfg, run, inputs[0]);
      var next := PassOf(cfg, run, inputs[0]);
      if next.Continue? {
        LateInputsAreIgnored(cfg, next.run, inputs[1..], more);
      }
    }
  }

  lemma {:induction false} EveryRunEnds(cfg: Config, messages: seq<Message>, inputs: seq<Input>, more: seq<Input>)
    requires WellFormed(messages) && |inputs| >= cfg.MaxSteps() + MAX_RECOVERIES
    ensures AgentRun(cfg, messages, inputs + more) == AgentRun(cfg, messages, inputs)
  {
    var context := ContextOf(cfg, messages);
    ContextIsFaithful(cfg, messages);
    if context.Compacted? {
      StartKeepsInv(cfg, context.messages);
      LateInputsAreIgnored(cfg, Start(cfg, context.messages), inputs, more);
    }
  }

  /** In every run, over any stretch in which a call was always judged to be a write, it
      executes at most twice, and never again after a success or an attempted mutation. */
  lemma {:induction false} RunFencesMutations(
    cfg: Config, messages: seq<Message>, inputs: seq<Input>, from: nat, i: nat, j: nat)
    requires WellFormed(messages)
    requires from <= i < j < |History(cfg, AgentRun(cfg, messages, inputs).0)|
    requires var history := History(cfg, AgentRun(cfg, messages, inputs).0);
             history[i].key == history[j].key && AlwaysWrites(history[from..j + 1], history[j].key)
    ensures var history := History(cfg, AgentRun(cfg, messages, inputs).0);
            !history[i].done && Count(history[from..j], history[j].key) < MAX_ATTEMPTS
  {
    EveryRunIsKept(cfg, messages, inputs);
    MutationsAreFenced(History(cfg, AgentRun(cfg, messages, inputs).0), from, i, j);
  }

  /** Spellings of the arguments that are one call to the guard are judged alike. */
  ghost predicate Steady(cfg: Config) {
    forall tool, a, b :: cfg.canonical(a) == cfg.canonical(b) ==> cfg.readOnly(tool, a) == cfg.readOnly(tool, b)
  }

  lemma {:induction false} ExecutedCall(cfg: Config, receipts: seq<Receipt>, e: Execution) returns (call: Call)
    requires e in Executions(cfg, receipts)
    ensures e.key == cfg.KeyOf(call) && e.readOnly == cfg.ReadsOnly(call)
    decreases |receipts|
  {
    var before, r := receipts[..|receipts| - 1], receipts[|receipts| - 1];
    if e in Executions(cfg, before) {
      call := ExecutedCall(cfg, before, e);
    } else {
      call := r.call;
    }
  }

  lemma {:induction false} LoggedCall(cfg: Config, log: seq<Event>, e: Execution) returns (call: Call)
    requires e in History(cfg, log)
    ensures e.key == cfg.KeyOf(call) && e.readOnly == cfg.ReadsOnly(call)
    decreases |log|
  {
    var before, last := log[..|log| - 1], log[|log| - 1];
    if e in History(cfg, before) {
      call := LoggedCall(cfg, before, e);
    } else {
      call := ExecutedCall(cfg, last.receipts, e);
    }
  }

  lemma {:induction false} SteadyFlags(cfg: Config, log: seq<Event>, d: Execution, e: Execution)
    requires Steady(cfg) && d in History(cfg, log) && e in History(cfg, log) && d.key == e.key
    ensures d.readOnly == e.readOnly
  {
    var a := LoggedCall(cfg, log, d);
    var b := LoggedCall(cfg, log, e);
  }

  /** With a steady verdict the fence holds over the whole of every run. */
  lemma {:induction false} SteadyRunsFence(cfg: Config, messages: seq<Message>, inputs: seq<Input>, i: nat, j: nat)
    requires WellFormed(messages) && Steady(cfg) && i < j < |History(cfg, AgentRun(cfg, messages, inputs).0)|
    requires var history := History(cfg, AgentRun(cfg, messages, inputs).0);
             history[i].key == history[j].key && !history[j].readOnly
    ensures var history := History(cfg, AgentRun(cfg, messages, inputs).0);
            !history[i].done && Count(history[..j], history[j].key) < MAX_ATTEMPTS
  {
    var log := AgentRun(cfg, messages, inputs).0;
    var history := History(cfg, log);
    forall k | 0 <= k <= j && history[k].key == history[j].key ensures !history[k].readOnly {
      SteadyFlags(cfg, log, history[k], history[j]);
    }
    StretchWrites(history, 0, j);
    RunFencesMutations(cfg, messages, inputs, 0, i, j);
    assert history[0..j] == history[..j];
  }
}
