# The assistant backend, modelled and proved

A Dafny 4.11 model of the stateful core of the Go backend under `apps/api-go`, and
proofs of what that core guarantees over whole runs. `dafny verify dfyconfig.toml`
checks all of it.

| module | what it models |
|---|---|
| `ToolPolicy`, `ReadChain` | which tools an account may use, the cached tool catalogues, the chain of live reads a request must make and the tool choice each step forces |
| `Transcript`, `Compaction` | the shape of a chat transcript with tool calls, and fitting it into a byte budget |
| `AgentCalls`, `RelayRetry`, `AgentLoop` | repairing call ids, the guard against repeated calls, the relay with its tool-choice fallbacks, and the bounded agent loop driven by an arbitrary provider |
| `AgentRuns`, `ForcedOrder` | what every run of that loop keeps, and the order in which it forces reads |
| `RuntimeLifecycle` | admission and draining of background tasks and the ordered shutdown, over all interleavings |
| `CacheGate` | the response cache with its keyed gate, over all interleavings |
| `PaymentDecision`, `HistoryContext` | the latest payment stance of a conversation, and compaction of stored history |
| `BodyStorage`, `BoundedIO` | request bodies in memory or on disk with usage counters, and bounded readers and writers |
| `RateLimit` | the fixed-window limiter on its least-recently-used cache |
| `RateIntervals`, `InstantRate` | how many requests it admits in an interval, exactly |
| `OperationPath`, `Pricing`, `OggScan` | route templates, previewed price changes, and the Ogg page scan |
| `Basics`, `Text` | sequences and substring search |

Code that updates objects step by step is a class or a method with loops, tied to a
function on values; what the source promises is then proved about that function and
about every run built from it. Interleavings are runs of atomic actions, one per
critical section. Providers, tools, clocks and failures are arbitrary.

Where a promise turned out not to hold, the code is modelled as it is and the exact
condition is proved:

- The tool-catalogue key leaves out the drawing switch. A cached catalogue is stale
  exactly for developers, and only in the image tool, once the switch has moved.
- A read of the chain can be forced after an earlier one failed. The activity tools
  are forced before the rest of the chain and in an order of their own: the first one
  fails, the provider, told to use no tools, repeats it with success and calls another
  read that fails, and the second activity tool is forced although it stands behind
  that read. Some run does this exactly for requests that start no key, support or
  image workflow and have all three activities, or two of them and plan offers or a
  recommendation. No run of any other request does.
- The retry helper assigns its status and body to inner variables: a fallback chosen
  on the last attempt is reported as status 0 without a body. A malformed success is
  returned although a comment says it is retried.
- Memory and disk storage differ exactly on an empty read at the end and on the use of
  a reader after it was closed.
- Stores are closed in quiet exactly when both the stop and the wait are wired.
- A price change copies the tables before it takes the update lock, so a write to
  another unlocked model in between is lost.
- A template that repeats a parameter name accepts as many unasked keys as it has
  surplus repeats.
- `Check` answers yes and `Request` no for a key too long to be stored.
- The limiter admits at most twice the limit in the length of a window exactly when no
  call reads the clock before the previous holder of the lock is done. One nanosecond
  of overlap admits one request more, two admit three times the limit. The exact number
  is proved for every overlap and every length. When calls take no time it is one less
  than twice the limit. Expiry in the cache runs from the last request; after a pause
  of a window a call that waited for the lock since before it opens an old window again.
- Interest in buying without payment words in the decided text gives no offer.

Every lemma carries `{:induction false}`: proofs by induction make their own recursive
calls.

## Model

| member | source | states |
|---|---|---|
| `ToolPolicy.KeyForTools` | apps/api-go/controller/assistant_agent.go:609-645 | The key is always a valid index into the table of 2048 tool sets. |
| `ToolPolicy.PackInjective` | apps/api-go/controller/assistant_agent.go:609-645 | Packing flags into a number loses none of them. |
| `ToolPolicy.KeyDeterminesFlags` | apps/api-go/controller/assistant_agent.go:609-645 | Two contexts with one key agree on every flag the key is made of. |
| `ToolPolicy.FilterReadsFlags` | apps/api-go/controller/assistant_agent.go:673-760 | The per-tool filter depends on nothing of a context but those flags and the drawing switch. |
| `ToolPolicy.KeyAgreesWithFilter` | apps/api-go/controller/assistant_agent.go:609-760 | For equal keys the filter gives one verdict under two switch settings if and only if the tool is not the image tool, the account is no developer's, or the settings are equal. |
| `ToolPolicy.StaleCatalogue` | apps/api-go/controller/assistant_agent.go:96-115 | A catalogue filled earlier is the right one now if and only if there is no image tool, the account is no developer's, or the switch has not moved. |
| `ToolPolicy.ToolSets.DefinitionsFor` | apps/api-go/controller/assistant_agent.go:595-607 | The cached answer is the direct filter's exactly under that condition; every other tool is listed if and only if it is allowed; a slot is filled once. |
| `ToolPolicy.ToolSets.FillOnce` | apps/api-go/controller/assistant_agent.go:595-607 | Filling touches only an empty slot and keeps every slot equal to the catalogue of the context that filled it. |
| `ToolPolicy.ToolSets.SelectTools` | apps/api-go/controller/assistant_agent.go:595-607 | The filtering loop returns the allowed tools in catalogue order. |
| `ReadChain.ChainAllowed` | apps/api-go/controller/assistant_agent.go:983-1033 | Every tool of the read chain is allowed for the account and is neither an administrator tool nor the title tool. |
| `ReadChain.ChainDistinct` | apps/api-go/controller/assistant_agent.go:983-1033 | No tool occurs twice in the chain or in the activity list. |
| `ReadChain.TitleChangesNoChain` | apps/api-go/controller/assistant_agent.go:983-1033 | Wanting a title changes nothing in the chain. |
| `ReadChain.NextInProgress` | apps/api-go/controller/assistant_agent.go:1035-1047 | With no failed link the next read is an uncalled link, or every link has been called. |
| `ReadChain.NextInOrder` | apps/api-go/controller/assistant_agent.go:1035-1047 | The next read is the first link before which all were called and succeeded. |
| `ReadChain.CompleteMeansCalled` | apps/api-go/controller/assistant_agent.go:1035-1047 | A complete chain has no uncalled link. |
| `ReadChain.ChainForced` | apps/api-go/controller/assistant_agent.go:1172-1267 | Without another workflow, while a link is missing and none has failed, the step choice names an uncalled link. |
| `ReadChain.OvertakesMeans` | apps/api-go/controller/assistant_agent.go:983-1244 | What the condition of the order results means: some activity tool but the first stands in the chain behind a tool that is not an earlier activity tool. |
| `ReadChain.LeadIsForced` | apps/api-go/controller/assistant_agent.go:1172-1244 | Until the leading tool of a request has been called, every choice names it, whatever else was called. |
| `ReadChain.ForcedKeepsOrder` | apps/api-go/controller/assistant_agent.go:1172-1267 | For any request whose activity tools overtake nothing: once the leading tool was called, or while no chain tool was, a forced chain tool has no failed one before it. |
| `ReadChain.WorkflowSteps` | apps/api-go/controller/assistant_agent.go:1810-1859 | The raised step count is at least one and at least the minimum of every workflow. |
| `ReadChain.MaxSteps` | apps/api-go/controller/assistant_agent.go:1810-1867 | The step budget has room for every link of the chain, the title and the reserved last turn, and for every forced workflow. |
| `Transcript.GroupsSound` | apps/api-go/internal/agent/context.go:99-135 | What the splitter returns are protocol groups, and together they are the conversation. |
| `Transcript.GroupsComplete` | apps/api-go/internal/agent/context.go:99-135 | Any conversation made of protocol groups is split into exactly those groups. |
| `Transcript.AppendExchange` | apps/api-go/controller/assistant_agent.go:2068-2130 | Appending calls with new ids and one result each, in order, keeps a transcript well formed. |
| `Transcript.TextIsWellFormed` | apps/api-go/controller/assistant_agent.go:1801-1803 | A conversation of plain text is well formed and uses no call id. |
| `Compaction.ConversationGroups` | apps/api-go/internal/agent/context.go:99-135 | The splitting loop succeeds exactly on conversations made of groups and returns them. |
| `Compaction.Compact` | apps/api-go/internal/agent/context.go:19-97 | The result is the first of: unchanged, shortened, fewest groups dropped; it fits the budget and is faithful to the original. |
| `Compaction.DropGroups` | apps/api-go/internal/agent/context.go:55-97 | The loop drops unprotected groups one at a time and stops at the first result that fits. |
| `Compaction.SparingIsFaithful` | apps/api-go/internal/agent/context.go:19-97 | Any choice that spares policy messages, the latest user request and the newest group is faithful: protocol shape, call ids, policies, latest request and newest group survive. |
| `Compaction.ExpectedIsFaithful` | apps/api-go/internal/agent/context.go:19-97 | Whatever compaction returns fits the budget and is faithful. |
| `Compaction.ShorteningIsFaithful` | apps/api-go/internal/agent/context.go:33-53 | Shortening old results is faithful. |
| `Compaction.CandidateIsFaithful` | apps/api-go/internal/agent/context.go:55-97 | Dropping groups behind a receipt is faithful, wherever the receipt is inserted. |
| `Compaction.InsertBetweenGroups` | apps/api-go/internal/agent/context.go:84-91 | The receipt lands between two protocol groups, so shape and order survive. |
| `AgentCalls.FreshId` | apps/api-go/internal/agent/loop.go:20-26 | The suffix search ends with a non-empty unused id, and keeps the base when that is unused. |
| `AgentCalls.NormalizeCalls` | apps/api-go/internal/agent/loop.go:13-34 | The loop repairs the calls one after the other, and the ids in use grow by exactly theirs. |
| `AgentCalls.NormalizedIsRepaired` | apps/api-go/internal/agent/loop.go:13-34 | As many calls as before, tools and arguments unchanged, ids distinct, non-empty and new; good ids are kept. |
| `AgentCalls.LoopGuard.Allow` | apps/api-go/internal/agent/loop.go:101-116 | The verdict and new memory of the guard. |
| `AgentCalls.LoopGuard.Complete` | apps/api-go/internal/agent/loop.go:118-127 | Only a successful call that is not read-only changes the memory, and it opens a new epoch. |
| `AgentCalls.GuardRemembers` | apps/api-go/internal/agent/loop.go:36-48 | Over any stretch in which a call was always judged a write, the guard adds exactly its executions and its success to what it knew before. |
| `AgentCalls.GuardKnowsExecuted` | apps/api-go/internal/agent/loop.go:101-116 | The guard knows a call if and only if it ran. |
| `AgentCalls.MutationsAreFenced` | apps/api-go/internal/agent/loop.go:42-127 | In every admitted history, over any such stretch, a call runs at most twice and never after it succeeded. |
| `AgentCalls.RepeatNeedsRead` | apps/api-go/internal/agent/loop.go:42-127 | A write that succeeded runs again as a write only if the same call was judged read-only, and ran, in between. |
| `AgentCalls.OneReadBreaksTheFence` | apps/api-go/internal/agent/loop.go:101-127 | One verdict of read-only in between breaks the fence: write, read and write again are all admitted. |
| `RelayRetry.RelayWithRetry` | apps/api-go/controller/assistant_agent.go:1602-1661 | The retry loop equals its recursive description for every script of attempts. |
| `RelayRetry.ChoicesDescend` | apps/api-go/controller/assistant_agent.go:1301-1351 | Every attempt's tool choice descends from the first: a name is never lost, only auto, none and required are ever dropped, and there are at most as many calls as attempts. |
| `RelayRetry.FallbackOnLastAttempt` | apps/api-go/controller/assistant_agent.go:1608-1661 | The helper reports neither a failure nor a status if and only if the choice can be adapted, every attempt but the last is answered with a retryable status and asks for no other choice, and the last is no success and asks for one. |
| `RelayRetry.MalformedSuccessReturned` | apps/api-go/controller/assistant_agent.go:1615-1650 | A malformed success on the first attempt is returned at once if and only if it does not ask for an available fallback. |
| `AgentLoop.RunAgent` | apps/api-go/controller/assistant_agent.go:1741-2137 | The loop, with its guard object, returns the log and outcome the run is defined to have for these inputs of provider, tools and interruptions. |
| `AgentLoop.RunSteps` | apps/api-go/controller/assistant_agent.go:1885-2137 | The same from the first step on. |
| `AgentLoop.Pass` | apps/api-go/controller/assistant_agent.go:1889-2134 | One pass; the guard holds exactly what was executed. |
| `AgentLoop.IgnoredTitle` | apps/api-go/controller/assistant_agent.go:2004-2019 | An ignored title is skipped; the reply is taken over only when the request itself forces no tool. |
| `AgentLoop.FinishRound` | apps/api-go/controller/assistant_agent.go:2068-2133 | A round leaves calls and results in the transcript, the log and the guard alike. |
| `AgentLoop.RepliedTurn` | apps/api-go/controller/assistant_agent.go:1998-2066 | A reply is an answer, a skipped title, a round or a reason to stop. |
| `AgentLoop.RefusedTurn` | apps/api-go/controller/assistant_agent.go:1938-1996 | A refused turn shrinks the context, gives up the title, reads on the server or fails. |
| `AgentLoop.ReadOnServer` | apps/api-go/controller/assistant_agent.go:1961-1993 | The server-side read, logged and shown like a call. |
| `AgentLoop.RunBatch` | apps/api-go/controller/assistant_agent.go:2077-2133 | The calls of a response in order, the guard in step with the history. |
| `AgentLoop.ExecuteCall` | apps/api-go/controller/assistant_agent.go:2086-2111 | Limit, retry block and guard decide in this order; only what runs reaches the guard. |
| `AgentLoop.CompactContext` | apps/api-go/controller/assistant_agent.go:1669-1677 | Compaction to the target, or to the hard limit when required context is larger. |
| `AgentRuns.EveryRunIsKept` | apps/api-go/controller/assistant_agent.go:1741-2137 | For every provider, tool and interruption: well-formed requests within the context limit that show the round before; steps never go down; every round and server-side read answers the turn before it, which offered tools, and where tools are forced it is the one call that was named; the choice is the one the earlier events call for; at most two turns more than steps, of at most three relay calls; at most four tools a round; none in the last turn or after a refused round; every execution admitted by the guard. A plain request gets a turn without tools, and an answer, only after every chain read or a failed one. |
| `AgentRuns.EveryRunEnds` | apps/api-go/controller/assistant_agent.go:1885-2137 | Every run ends within one pass for each step and recovery, whatever comes later. |
| `AgentRuns.PassKeeps` | apps/api-go/controller/assistant_agent.go:1889-2134 | One pass keeps the invariant and spends a step or one of two recoveries. |
| `AgentRuns.AskKeeps` | apps/api-go/controller/assistant_agent.go:1899-1930 | The request of a pass fits the events before it. |
| `AgentRuns.RepliedKeeps` | apps/api-go/controller/assistant_agent.go:1998-2133 | Whatever the provider replies keeps the invariant or ends the run as described. |
| `AgentRuns.RefusedKeeps` | apps/api-go/controller/assistant_agent.go:1938-1996 | So does every refusal. |
| `AgentRuns.ShrinkKeeps` | apps/api-go/controller/assistant_agent.go:1939-1953 | A shrunk context keeps the invariant and has at most two thirds of the bytes. |
| `AgentRuns.ServerReadKeeps` | apps/api-go/controller/assistant_agent.go:1961-1993 | A server-side read leaves a well-formed exchange with a new id, of the tool that was named. |
| `AgentRuns.IgnoredTitleKeeps` | apps/api-go/controller/assistant_agent.go:2004-2019 | An ignored title loses no pending read. |
| `AgentRuns.RoundKeeps` | apps/api-go/controller/assistant_agent.go:2068-2133 | A round of any calls and results keeps the invariant. |
| `AgentRuns.BatchKeeps` | apps/api-go/controller/assistant_agent.go:2077-2133 | One receipt and one result per call in order unless the run stops, at most four executed, all admitted. |
| `AgentRuns.ReceiptAt` | apps/api-go/controller/assistant_agent.go:2077-2111 | Every receipt is the verdict of limit, retry block and guard on its call, given what ran before it. |
| `AgentRuns.FirstUseRuns` | apps/api-go/controller/assistant_agent.go:2077-2111 | A call of a tool that ran neither before the round nor earlier in it runs, unless it is blocked or past the limit. |
| `AgentRuns.ChoiceForces` | apps/api-go/controller/assistant_agent.go:1907-1912 | In every state the choice forces the title first and then a missing read. |
| `AgentRuns.PendingIsForced` | apps/api-go/controller/assistant_agent.go:1907-1912 | While a read is missing and none has failed, an uncalled read is named. |
| `AgentRuns.BareMeansRead` | apps/api-go/controller/assistant_agent.go:1907-1912 | A turn without tools comes only when no read is pending. |
| `AgentRuns.RunFencesMutations` | apps/api-go/controller/assistant_agent.go:2086-2108 | In every run, over any stretch in which a call was always judged a write, it executes at most twice and never after a success or an attempted mutation. |
| `AgentRuns.SteadyRunsFence` | apps/api-go/controller/assistant_agent.go:2086-2108 | When spellings of one call are always judged alike, that holds for every write over the whole run. |
| `ForcedOrder.NothingBeforeFirst` | apps/api-go/controller/assistant_agent.go:1907-2026 | In every run nothing but the title is called before the leading tool. |
| `ForcedOrder.EveryRunKeepsOrder` | apps/api-go/controller/assistant_agent.go:1172-2133 | For a request whose activity tools overtake nothing, in every run a turn that forces a chain tool comes after all earlier called ones succeeded. |
| `ForcedOrder.SomeRunBreaksOrder` | apps/api-go/controller/assistant_agent.go:1210-2133 | For any other request and any conversation with room for two rounds, some provider makes a run that forces a chain tool after an earlier one failed. |
| `ForcedOrder.OrderKeptIff` | apps/api-go/controller/assistant_agent.go:1172-2133 | So every run of a request keeps the order if and only if its activity tools overtake nothing. |
| `RuntimeLifecycle.ConfiguredShutdownSeconds` | apps/api-go/runtime_lifecycle.go:20-29 | The timeout is positive, capped, and the configured one when that is in range. |
| `RuntimeLifecycle.RuntimeLoops.Go` | apps/api-go/runtime_lifecycle.go:51-71 | Admission is refused exactly after Stop; the first task gets a new idle channel. |
| `RuntimeLifecycle.RuntimeLoops.Done` | apps/api-go/runtime_lifecycle.go:73-80 | The last task closes the idle channel, which is still open. |
| `RuntimeLifecycle.RuntimeLoops.Stop` | apps/api-go/runtime_lifecycle.go:82-89 | Admission closes; nothing else changes. |
| `RuntimeLifecycle.ShutdownRuntime` | apps/api-go/runtime_lifecycle.go:121-174 | The wired store steps run, all and in order, exactly when every drain succeeded and the refunds are complete; success is reported exactly when nothing failed. |
| `RuntimeLifecycle.RunsKeep` | apps/api-go/runtime_lifecycle.go:51-174 | Every interleaving of admissions, completions, Stop, waiters and shutdown keeps the invariant. |
| `RuntimeLifecycle.LoopsAreExact` | apps/api-go/runtime_lifecycle.go:44-80 | In every reachable state the counter is the number of live tasks, the current channel is closed exactly at zero, and no channel is closed twice. |
| `RuntimeLifecycle.QuietForever` | apps/api-go/runtime_lifecycle.go:51-89 | Stopped and idle stays so in every continuation. |
| `RuntimeLifecycle.WaitIsExact` | apps/api-go/runtime_lifecycle.go:91-101 | A waiter can return nil exactly when there was an idle moment since it looked; if it looked after Stop, no task is live or starts ever again. |
| `RuntimeLifecycle.StaleWaiterReturns` | apps/api-go/runtime_lifecycle.go:91-101 | A waiter that looked before Stop can return with a task live. |
| `RuntimeLifecycle.StoresNeedDrains` | apps/api-go/runtime_lifecycle.go:140-174 | No store step without all drains and refunds; the steps taken are a prefix of the wired ones; a finished shutdown took all or none. |
| `RuntimeLifecycle.StoresAreQuietForever` | apps/api-go/runtime_lifecycle.go:121-174 | With both the stop and the wait wired, once a store is touched no task is live and none starts again. |
| `RuntimeLifecycle.LiveTaskInStores` | apps/api-go/runtime_lifecycle.go:121-174 | Without one of the two, some run touches a store with a task live. |
| `RuntimeLifecycle.QuietNeedsStopAndWait` | apps/api-go/runtime_lifecycle.go:121-174 | So stores are touched only in quiet if and only if both are wired. |
| `CacheGate.KeyedGate.Try` | apps/api-go/pkg/syncx/keyed_gate.go:30-66 | One critical section of Acquire: take, wait or refuse, keeping the gate's invariant. |
| `CacheGate.KeyedGate.ReleaseEntry` | apps/api-go/pkg/syncx/keyed_gate.go:30-66 | A release closes its own entry once; a second one changes nothing. |
| `CacheGate.RunsKeep` | apps/api-go/controller/assistant.go:834-871 | Every interleaving of requests keeps the protocol invariant. |
| `CacheGate.CallsAreAccountedFor` | apps/api-go/controller/assistant.go:834-871 | Conservation: gate holders' calls for a key are the live entry, the expired ones, the calls that stored nothing and the one in flight. |
| `CacheGate.SingleFlight` | apps/api-go/controller/assistant.go:834-871 | At most one gate holder per key, and none calls while an entry is live. |
| `CacheGate.StoredMeansNoCall` | apps/api-go/controller/assistant_cache.go:189-225 | After a store no gate holder calls for that key before the entry expires. |
| `CacheGate.GateIsBoundedAndLive` | apps/api-go/pkg/syncx/keyed_gate.go:15-73 | The gate never exceeds its bound, a request bypasses it exactly when it is full of other keys, and everyone who waits waits for a holder. |
| `PaymentDecision.LastTermRange` | apps/api-go/controller/assistant_context.go:749-761 | The search loop returns the last range. |
| `PaymentDecision.LastRangeSpec` | apps/api-go/controller/assistant_context.go:749-761 | That range is an occurrence of a term, and no term occurs later, or at the same place and longer. |
| `PaymentDecision.Anchor` | apps/api-go/controller/assistant_context.go:717-730 | The anchor is the last message with a stance. |
| `PaymentDecision.LatestPaymentDecisionText` | apps/api-go/controller/assistant_context.go:717-730 | The loop returns the anchor message from its stance on, and every message after it. |
| `PaymentDecision.EarlierIsIgnored` | apps/api-go/controller/assistant_context.go:717-730 | Messages before the anchor never change the decided text. |
| `PaymentDecision.SilentMessage` | apps/api-go/controller/assistant_context.go:732-747 | A message takes no stance if and only if it has no refusal, no purchase term and no payment language. |
| `PaymentDecision.RefusalStays` | apps/api-go/controller/assistant_context.go:732-747 | Cutting at a refusal keeps the refusal. |
| `PaymentDecision.InterestStays` | apps/api-go/controller/assistant_context.go:732-747 | Cutting at interest leaves no refusal and keeps purchase terms. |
| `PaymentDecision.FirstLineDecides` | apps/api-go/controller/assistant_context.go:717-747 | Before messages without a stance only the cut message decides what the text contains. |
| `PaymentDecision.DecidedLines` | apps/api-go/controller/assistant_context.go:717-770 | What the decided text holds, by the stance of the anchor. |
| `PaymentDecision.LatestStanceDecides` | apps/api-go/controller/assistant_context.go:676-770 | The offer of a whole conversation, exactly: hidden, refusal, interest and detail cases; with interest as the latest stance no refusal is left. |
| `HistoryContext.TrimToBudget` | apps/api-go/controller/assistant.go:550-565 | The loop keeps the recent turns. |
| `HistoryContext.RecentIsLongest` | apps/api-go/controller/assistant.go:550-565 | They are the longest run of whole pairs at the end that fits. |
| `HistoryContext.Excerpt` | apps/api-go/controller/assistant_history_context.go:65-78 | An excerpt never exceeds its budget. |
| `HistoryContext.ExcerptQuotes` | apps/api-go/controller/assistant_history_context.go:65-78 | With room beyond the marker it is the whole content, or fills its budget exactly with a head and a tail equal up to one rune. |
| `HistoryContext.CompactHistory` | apps/api-go/controller/assistant_history_context.go:19-63 | The loops compute the planned result, never indexing out of range. |
| `HistoryContext.PlanFits` | apps/api-go/controller/assistant_history_context.go:40-48 | The planned shares and the recent turns fit the budget together. |
| `HistoryContext.WithinBudget` | apps/api-go/controller/assistant_history_context.go:19-63 | For every history and budget the result has at most budget runes. |
| `HistoryContext.KeepsOrder` | apps/api-go/controller/assistant_history_context.go:19-63 | Kept messages come in strictly increasing original order with their roles; the opening pair leads the excerpts, each quotes its original, the rest is verbatim. |
| `HistoryContext.MarkerIsShort` | apps/api-go/controller/assistant_history_context.go:9-11 | The marker is shorter than the least excerpt, as KeepsOrder asks of it. |
| `HistoryContext.RecentShare` | apps/api-go/controller/assistant_history_context.go:34-41 | The verbatim end is the longest fitting one for its share, and the newest pair is lost only if it alone exceeds the budget. |
| `BodyStorage.CacheStats.DecrementDiskFiles` | apps/api-go/common/disk_cache_config.go:115-123 | Counters go down and are clamped at zero. |
| `BodyStorage.ByteReader.Read` | apps/api-go/common/body_storage.go:62-69 | A reader over memory delivers the next bytes at its cursor, or the end. |
| `BodyStorage.File.Read` | apps/api-go/common/body_storage.go:201-208 | So does a file descriptor, but an empty read is never the end and a closed one fails. |
| `BodyStorage.File.ReadFull` | apps/api-go/common/body_storage.go:249-254 | Reading in pieces delivers the slice asked for, as far as the file goes. |
| `BodyStorage.MemoryStorage.Use` | apps/api-go/common/body_storage.go:62-117 | Reads, seeks, bytes and size answer and move the cursor as the session does. |
| `BodyStorage.MemoryStorage.CloseStorage` | apps/api-go/common/body_storage.go:80-92 | Close as the session does it; only the first one changes the counters. |
| `BodyStorage.MemoryStorage.OpenReader` | apps/api-go/common/body_storage.go:103-113 | A new object at the start of the payload, or nothing after Close. |
| `BodyStorage.DiskStorage.Use` | apps/api-go/common/body_storage.go:201-284 | Reads, seeks, bytes and size answer and move the cursor as the session does. |
| `BodyStorage.DiskStorage.ReadBytes` | apps/api-go/common/body_storage.go:230-262 | All bytes, and the cursor back where it was. |
| `BodyStorage.DiskStorage.CloseStorage` | apps/api-go/common/body_storage.go:219-228 | Close as the session does it; only the first one changes the counters. |
| `BodyStorage.DiskStorage.OpenReader` | apps/api-go/common/body_storage.go:264-280 | Another descriptor at the start of the file, or nothing after Close. |
| `BodyStorage.RunInMemory` | apps/api-go/common/body_storage.go:43-121 | Any list of operations on a memory storage object and on the readers opened from it gets the replies of the session; the counters count it while it is open. |
| `BodyStorage.RunOnDisk` | apps/api-go/common/body_storage.go:123-288 | The same for a disk storage object and its file descriptors. |
| `BodyStorage.StepsAgree` | apps/api-go/common/body_storage.go:62-288 | One operation answers alike in memory and on disk if and only if it is no empty read at the end and uses no closed reader; storage and open readers stay alike in any case. |
| `BodyStorage.MemoryEqualsDisk` | apps/api-go/common/body_storage.go:62-288 | So do whole runs, if and only if none of their operations is one of those. |
| `BodyStorage.PayloadSurvives` | apps/api-go/common/body_storage.go:94-113 | After any run the payload is intact, and fully visible and open to new readers exactly until the first Close. |
| `BodyStorage.ReadersReplay` | apps/api-go/common/body_storage.go:23-29 | Every reader delivers the payload from its start, in order and without gaps, whatever is done to the storage and other readers, and also after Close. |
| `BodyStorage.EndMeansAll` | apps/api-go/common/body_storage.go:23-29 | A reader that reports the end has delivered all of the payload. |
| `BodyStorage.StorageReplays` | apps/api-go/common/body_storage.go:62-69 | So does the storage's own cursor while nobody seeks or closes, also across Bytes. |
| `BodyStorage.CreateBodyStorage` | apps/api-go/common/body_storage.go:291-310 | Disk or memory by threshold and room, falling back to memory; exactly the new storage is counted. |
| `BodyStorage.CountersAreExact` | apps/api-go/common/disk_cache_config.go:109-134 | In every run of creations and closes the counters are the number and size of the open storages, and the clamp never fires. |
| `BodyStorage.RepeatedCloseIsNothing` | apps/api-go/common/body_storage.go:80-92 | A second Close changes nothing, whatever happened in between. |
| `BodyStorage.HonestRunsStayBounded` | apps/api-go/common/body_storage.go:312-358 | While streams keep to their declared length, disk usage never passes its maximum. |
| `BodyStorage.LimitMakesBound` | apps/api-go/common/body_storage.go:312-358 | A stream admitted by its declared length can never push usage past the maximum if and only if its byte limit would have been admitted. |
| `BoundedIO.LimitBuffer.Reserve` | apps/api-go/common/limit.go:32-55 | Room is made exactly when it fits; contents survive and capacity stays within the limit. |
| `BoundedIO.LimitBuffer.Write` | apps/api-go/common/limit.go:57-64 | All of the data or none of it. |
| `BoundedIO.LimitBuffer.Reset` | apps/api-go/common/limit.go:75-77 | Empties the buffer. |
| `BoundedIO.HeldWrite` | apps/api-go/controller/assistant_agent.go:1464-1488 | A body and overflow mark that stand for the writes so far still do after one more. |
| `BoundedIO.RelayRecorder.Write` | apps/api-go/controller/assistant_agent.go:1464-1488 | The recorder holds the exact concatenation of its writes or a sticky failure; the caller is told all was written. |
| `BoundedIO.RelayRecorder.ResetForRelayRetry` | apps/api-go/controller/assistant_agent.go:1512-1519 | A reset forgets writes, failure and status. |
| `BoundedIO.OperationWriter.Write` | apps/api-go/controller/assistant_admin_operations.go:363-378 | The writer holds the exact concatenation or a sticky overflow mark; the first status wins. |
| `BoundedIO.LimitedBody.Read` | apps/api-go/common/limit.go:155-173 | Each read delivers the next bytes of the source; the limit error comes only when the source is longer. |
| `BoundedIO.ReadToError` | apps/api-go/common/limit.go:111-173 | Reading to the first error with any buffer sizes ends; the bytes are a prefix, and the limit error comes if and only if the source exceeds the limit. |
| `BoundedIO.ReadAllLimit` | apps/api-go/common/limit.go:79-92 | Everything up to the limit, or the limit error; a failure one byte past the limit may be reported as either. |
| `RateLimit.Evicted` | apps/api-go/pkg/cachex/byte_cache.go:236-239 | Eviction leaves the longest most-recently-used prefix within both budgets. |
| `RateLimit.Limiter.Store` | apps/api-go/pkg/cachex/byte_cache.go:219-239 | The store loop computes that, with its byte count exact. |
| `RateLimit.Limiter.Request` | apps/api-go/common/rate-limit.go:38-60 | The request equals its description on the cache and keeps the cache within its budgets. |
| `RateLimit.Limiter.Check` | apps/api-go/common/rate-limit.go:64-74 | The check equals its description, including its effect on expiry and recency. |
| `RateLimit.StoreKeeps` | apps/api-go/pkg/cachex/byte_cache.go:102-143 | Keys stay distinct, budgets hold, and a key that fits at all is never the one evicted. |
| `RateLimit.CheckPredictsRequest` | apps/api-go/common/rate-limit.go:38-74 | At one instant Check answers what Request would if and only if the limit is trivial or the key is short enough to be stored. |
| `RateLimit.KeysAreIndependent` | apps/api-go/common/rate-limit.go:38-74 | With room for all keys in use, a call changes only its own key's window, and its answer depends on that alone. |
| `RateLimit.TracesAreIndependent` | apps/api-go/common/rate-limit.go:38-74 | So over whole traces a key is limited as if it were alone. |
| `RateLimit.WindowServesLimit` | apps/api-go/common/rate-limit.go:49-58 | Until a window ends exactly the first max - count further requests are admitted, however calls overlap. |
| `RateLimit.ExpiryIsInvisible` | apps/api-go/pkg/cachex/byte_cache.go:114-124 | Cache expiry changes a decision if and only if a call began inside the window and reached the cache after the expiry. |
| `RateIntervals.AnyIntervalIsBounded` | apps/api-go/common/rate-limit.go:38-60 | Over every trace, however calls overlap and wait for the lock, an interval of any length admits at most the stated number. |
| `RateIntervals.BoundIsReached` | apps/api-go/common/rate-limit.go:38-60 | For every limit, duration, overlap and length some trace admits exactly that number. |
| `RateIntervals.MostIsExact` | apps/api-go/common/rate-limit.go:38-60 | So a number bounds all intervals of a length if and only if it is at least that. |
| `RateIntervals.MostInAWindow` | apps/api-go/common/rate-limit.go:46-58 | The number in closed form for intervals up to a window: the limit for every window that can open in it, and what is left of the one it found. |
| `RateIntervals.TwiceTheLimitIff` | apps/api-go/common/rate-limit.go:46-58 | A whole window admits at most twice the limit if and only if no call may read the clock before the previous holder of the lock is done. |
| `RateIntervals.OverlapExceeds` | apps/api-go/common/rate-limit.go:46-58 | The trace that admits more for any overlap, and three times the limit from an overlap of two nanoseconds on. |
| `RateIntervals.PauseGains` | apps/api-go/pkg/cachex/byte_cache.go:114-124 | Beyond a window a pause that lets the entry expire admits more than unbroken requests can, even without overlap. |
| `InstantRate.InstantIntervalIsBounded` | apps/api-go/common/rate-limit.go:38-60 | When calls take no time a whole window admits at most one less than twice the limit. |
| `InstantRate.InstantBoundIsReached` | apps/api-go/common/rate-limit.go:38-60 | For every limit and duration some trace of such calls reaches that. |
| `OperationPath.StringMap` | apps/api-go/controller/assistant_admin_operations.go:294-311 | Decoding succeeds exactly on nothing or an object of strings, and keeps its members. |
| `OperationPath.Expand` | apps/api-go/controller/assistant_admin_operations.go:328-352 | The substitution loop reports the first problem in segment order, then a count mismatch, else the filled path. |
| `OperationPath.Path` | apps/api-go/controller/assistant_admin_operations.go:323-352 | Decoding errors come first. |
| `OperationPath.PathParameters` | apps/api-go/controller/assistant_admin_operations.go:313-321 | The names in order, wildcards included; without wildcards the names expansion asks for. |
| `OperationPath.SplitJoin` | apps/api-go/controller/assistant_admin_operations.go:328-351 | Splitting undoes joining for segments without slashes. |
| `OperationPath.ExpandsExactly` | apps/api-go/controller/assistant_admin_operations.go:328-352 | Without repeated names expansion succeeds if and only if there is no wildcard, the keys are the names and every value is a non-empty literal segment. |
| `OperationPath.RepeatsAdmitExtras` | apps/api-go/controller/assistant_admin_operations.go:346-350 | With repeats it succeeds if and only if in addition the unasked keys are as many as the surplus repeats. |
| `OperationPath.RepeatLetsExtraThrough` | apps/api-go/controller/assistant_admin_operations.go:346-350 | For example a template of one name twice lets any one unasked key through. |
| `OperationPath.ExpandThenMatch` | apps/api-go/controller/assistant_admin_operations.go:323-352 | The result has the template's segments with values filled in; matching it gives back every name's value, and all that was passed if and only if no name repeats. |
| `OperationPath.MatchThenExpand` | apps/api-go/controller/assistant_admin_operations.go:323-352 | A matching path with literal values is exactly what its values expand to. |
| `OggScan.OpusDuration` | apps/api-go/common/audio.go:200-258 | The scan ends on every file, its offset strictly growing, and returns the scanned total over 48000. |
| `OggScan.TakePage` | apps/api-go/common/audio.go:232-252 | One header: its granule position counts even if its table is cut off. |
| `OggScan.TableSize` | apps/api-go/common/audio.go:245-249 | The page size is the sum of the segment table. |
| `OggScan.ScanIsGreatest` | apps/api-go/common/audio.go:208-236 | The total is the greatest granule position of the visited headers, at least zero. |
| `OggScan.PageReads` | apps/api-go/common/audio.go:223-252 | A well-formed page anywhere is recognised, its signed 64-bit granule position read back, and the next read is right behind its body. |
| `OggScan.NoiseBeforePage` | apps/api-go/common/audio.go:223-230 | Noise before a page never looks like a capture pattern, not even across the border. |
| `OggScan.DurationOfPages` | apps/api-go/common/audio.go:200-258 | For every file of well-formed pages with noise before, between and after, exactly the page boundaries are visited and the result is the greatest granule position, or zero. |
| `Pricing.BuildOptions` | apps/api-go/controller/assistant_admin.go:1937-1970 | The copied tables after the edits, table by table. |
| `Pricing.FilterTable` | apps/api-go/model/model_price_lock.go:161-179 | Locked names keep their current entry, missing ones included, and changed ones are noted. |
| `Pricing.FilterTables` | apps/api-go/model/model_price_lock.go:129-194 | Over all tables; a name is ignored if and only if it is locked and differs somewhere. |
| `Pricing.PriceBook.Apply` | apps/api-go/controller/assistant_admin.go:2313-2335 | An undisturbed apply: refused without a trace, or written as described. |
| `Pricing.WrittenEntry` | apps/api-go/controller/assistant_admin.go:2313-2335 | Every entry after a write: current if locked, as asked for the model, as copied for the rest. |
| `Pricing.PreviewIsApplied` | apps/api-go/controller/assistant_admin.go:1773-1840 | For an unlocked model: refused if and only if its state is not the previewed one, else it ends in the previewed state, in one of the price and ratio tables, with every other model untouched. |
| `Pricing.PreviewHonouredIff` | apps/api-go/controller/assistant_admin.go:2317-2327 | With writes in between, the preview is honoured if and only if every ratio the change leaves alone was copied as previewed. |
| `Pricing.OthersKeepIff` | apps/api-go/controller/assistant_admin.go:2320-2327 | Another model keeps what was written to it between copy and write if and only if it is locked or nothing was. |
| `Pricing.LockedModelKeeps` | apps/api-go/model/model_price_lock.go:161-188 | A model locked by the time of the write keeps every entry and is reported exactly when the change would have altered it. |
| `Pricing.RunKeeps` | apps/api-go/controller/assistant_admin.go:2313-2335 | Over every run of changes, locked and unnamed models keep every entry and no model gains both a price and a ratio. |

## Left out

- HTTP, Gin, database, Redis, filesystem and network calls: only their results enter, as arbitrary values.
- Prompt texts, tool descriptions, and the keyword and regular-expression classifiers: their verdicts are fields of the user context or arbitrary term lists.
- JSON decoding and encoding: bodies, tables and call arguments are already decoded; a call is identified by its tool and canonical arguments, so hash collisions are not modelled.
- Tool-name trimming in NormalizeCalls: tool names are values of a type.
- Authentication, authorization, redaction and network address checks: outside the modelled core.
- The tools themselves: a result is an arbitrary text with a success flag.
- The streaming relay writer: only the recorder used for non-streaming turns is modelled.
- RelayRetry.RelayWithRetry: the pauses between attempts are not timed, only that they can be cancelled.
- RelayRetry.FallbackOnLastAttempt: an attempt that was answered has a status other than 0, as every HTTP answer does.
- AgentRuns.EveryRunIsKept: that all reads come before a turn without tools is stated for requests in which no key, support, image or recommendation workflow takes over the choice; in those other requests the chain is not what the loop forces.
- AgentRuns.RunFencesMutations: whether a call only reads is an arbitrary function of its tool and raw arguments, as the source decodes them anew each time; two spellings of one call may be judged differently, and the fence then holds over stretches without a read-only verdict; with a steady verdict it holds over whole runs (SteadyRunsFence).
- ForcedOrder.SomeRunBreaksOrder: the conversation must leave room for two rounds of empty calls, since a run may otherwise end with its context too large before the third turn.
- RuntimeLifecycle.ShutdownRuntime: deadlines appear only as drains that may fail at any time.
- CacheGate.SingleFlight: requests that find the gate full, or have no cache key, go upstream outside it and are not counted.
- PaymentDecision.LatestStanceDecides: lower-casing is taken as one character to one, settling at once and leaving spaces and line breaks alone, since the code reuses its offsets on the original text; terms have no line break and no space at either end.
- BodyStorage.CountersAreExact: the cleanup, reset and synchronisation of the counters are left out, since they overwrite them independently of open storages.
- BodyStorage.MemoryEqualsDisk: the slice returned by Bytes is a value, so a caller that writes into it is not modelled; nor are file errors other than those stated, so another descriptor of the cache file can always be opened while the storage is.
- BoundedIO.ReadAllLimit: a source that fails with its last byte may be seen as ending or failing one read later.
- RateIntervals.AnyIntervalIsBounded: eviction by other keys is excluded by asking that all keys in use fit the cache together; keys are sequences of characters, one byte each.
- OggScan.OpusDuration: reads deliver all bytes there are; a reader that delivers fewer stops the scan early in the source. The other audio formats are not modelled.
- OperationPath.Match: the router's matching is modelled for single segments, since expansion refuses wildcards.
- Pricing.PriceBook.Apply: floating point is real arithmetic; validation of the written tables and the database transaction, which can only make a write fail as a whole, are left out, and so is the permission check before a preview.
- Integers are unbounded; no modelled counter or offset comes near 64 bits except the Ogg granule position, whose wrap to a signed number is modelled.
