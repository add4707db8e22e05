# Agent runtime, cache, limiters, event merge and market layer, verified

This project models the logic of an agent runtime, of the streaming backend in
front of it and of the market-data layer its agents use, in Dafny, and proves
properties of the model for every input, every run and every interleaving.
`dafny verify dfyconfig.toml` checks all of it.

**The run.** A plan of prompt, tool and loop steps (`Plans`) is executed over a
state dictionary, a cost ledger that raises when its ceiling is crossed
(`Costs`) and a tree of spans (`Trace`). `Interpreter` says what running a plan
does; the model, the tools and the event loop are an oracle that may answer
anything, in any order, at any cost that is not negative. `Runtime` and `Agent`
are the same run on mutable objects, each method proved equal to the function
it implements, and `Answers` says what each of them hands on. `Books` lists the
atomic actions a run is made of, says which of them are legal, and logs each as
it happens; `Conservation` proves that the log of every run is legal,
`Spending` and `Effort` bound its cost, its calls and its keys, `Stopping` says
why and how it stops, `Preflight` and `PreflightExact` compare the static
analysis of a plan with what happens, `Agent` puts the results together for a
whole run with its bail-out, and `Stragglers` says when a call outlives its
turn or its run. `Template` is the placeholder and condition language, `Retry`
the retry loop, `Notes` the notes a bail-out prompt is given.

**Around it.** `Lru` and `SingleFlight` are the cache and the deduplication of
concurrent calls, `LruHits` says exactly when the cache answers; `Buckets`,
`Ratelimit` and `KalshiClient` the two rate limiters; `Events` the merge of
many runs into one stream. In the protocols (`SingleFlight`, `Ratelimit`,
`Events`) a move is one stretch of code between two awaits and a run is any
sequence of moves the code allows.

**The market layer.** `Fees` and `Implied` are fee, stake and odds arithmetic on
exact reals, `Coherence` the no-arbitrage checks and what each finding is worth
under every settlement, `Ladders` what the scan of a ladder can miss, `History`
and `Replay` the chunked history and the replay of a past instant, `Linking` the
ticker grammar. `Prelude`, `Reals` and `Sorting` hold what several modules share.

Where code and documentation of the repository disagree the model follows the
code, and a lemma shows the difference:

- the taker fee is two cents at the middle, not 1.75, and its cap never binds
  (`Fees.FeeInCents`);
- a butterfly finding is said to cost nothing whatever happens; that holds only
  from a net of one dollar on, or where its upper strikes are one
  (`Coherence.ButterflyIsRisklessIff`, `Coherence.ConvexityFindingLoses`);
- a higher strike must not be dearer than any lower one, and only neighbours are
  compared (`Ladders.HiddenIff`);
- the exchange client is said to match the exchange's budget; for a budget below
  one a second or a safety factor above one it does not
  (`KalshiClient.KeepsToBudgetIff`);
- the complement check does not ask whether its two legs exclude each other
  (`Coherence.ComplementNeedsMore`);
- one long note can crowd out all others (`Notes.NewestCrowdsOut`);
- `required_inputs` overlooks nested tool arguments, `skip_if`, `until` without
  braces, and the names `state` and `now` (the four gap lemmas of `Preflight`,
  and `PreflightExact.UnseenNameIsMissed`);
- an own goal is credited to the team it is filed under
  (`Replay.OwnGoalCountsForItsTeam`);
- an event with a map number is keyed apart from its markets
  (`Linking.NumberedEventKeyedApart`).

## Model

| member | source | states |
|---|---|---|
| Costs.CostTracker.Add | rsi_arena/core/costs.py:239-245 | The record is kept whether or not the call raises, nothing else of the ledger changes, and it raises exactly when the total then exceeds `max_usd`, with the reserve once that is open. |
| Costs.CostTracker.Check | rsi_arena/core/costs.py:247-253 | Refuses exactly when as many calls are recorded as `max_calls` allows, or the money is used up, the limit itself included; changes nothing. |
| Costs.CostTracker.OpenReserve | rsi_arena/core/costs.py:211-220 | Opens the reserve and lifts the call cap; the allowance is never negative, completes a total within the new ceiling to it, and without a ceiling is what the total is below zero. |
| Costs.CostTracker.By | rsi_arena/core/costs.py:255-260 | The loop over the records computes, for any field of a record, the breakdown that the next two lemmas describe. |
| Costs.BreakdownIsGrouped | rsi_arena/core/costs.py:255-260 | The breakdown by a field has exactly the values the field takes, each with the total of its own records. |
| Costs.BreakdownConserves | rsi_arena/core/costs.py:255-260 | Over any covering list of distinct values the group totals add up to the total: no cost is lost or counted twice. |
| Costs.TotalMonotone | rsi_arena/core/costs.py:200-202 | With costs that are not negative a longer ledger never shows a smaller total. |
| Trace.RootTotalIsOwnTotal | rsi_arena/core/trace.py:85-93 | In every tree the recursive total of the root is the plain sum over all spans: each counted once. |
| Trace.PeelTotal | rsi_arena/core/trace.py:85-93 | Removing the newest span takes its cost off the recursive totals of exactly its ancestors. |
| Runtime.Tracer.AttachSpan | rsi_arena/core/trace.py:190-200 | A new span is the last child of the current one, is announced, and becomes current only for a task that enters it. |
| Runtime.Tracer.LeaveSpan | rsi_arena/core/trace.py:201-230 | The current span gets its status and its end is announced; its parent is current again. |
| Runtime.Tracer.RecordCost | rsi_arena/core/trace.py:232-251 | The span is overwritten first, then the ledger is charged; the notification is sent only if the ledger did not raise. |
| Runtime.Tracer.FinishRun | rsi_arena/core/trace.py:253-279 | Closes the root once, as an error or not; a second call changes nothing. |
| Books.StepKeepsSound | rsi_arena/core/trace.py:190-279 | Each single action of a run keeps trace and ledger sound: a tree with matching parents, table total equal to ledger total, one cost per span, starts and ends in pairs, and every span but a concurrent call ended before its parent. |
| Books.SoundAtEveryPoint | rsi_arena/core/trace.py:190-279 | Sound at every point of every legal run, aborted ones included. |
| Books.ConservedAtEveryPoint | rsi_arena/core/trace.py:85-93 | At every such point the recursive total of the root equals the ledger total and no span was charged twice. |
| Books.RebillingLosesCost | rsi_arena/core/trace.py:232-251 | Billing a span a second time keeps tree and ledger equal if and only if the cost it overwrites was zero. |
| Books.LedgerIsLog | rsi_arena/core/costs.py:239-245 | The ledger holds as many records as the log has bills, and their total; its ceilings are those it began with, but for the calls once the reserve was released. |
| Books.BillTells | rsi_arena/core/trace.py:232-251 | What is billed is on the span and in the ledger; the listener is told the cost and the new total, unless that crosses the ceiling in force. |
| Template.EvalFrame | rsi_arena/core/template.py:133-189 | A condition depends on state only through its free names. |
| Template.UnknownIsFree | rsi_arena/core/template.py:136-141 | The unknown name a condition fails on is one of its free names, and is neither in state nor a function. |
| Template.EvalMeansPython | rsi_arena/core/template.py:133-189 | On the fragment without unary plus, `~`, keywords and `**`, with and/or where a truth value is wanted: whenever the eager evaluation succeeds, Python succeeds with the same truth. |
| Template.OrAsValueDiffers | rsi_arena/core/template.py:151-153 | Off that fragment it does not: `(2 or 3) == 2` is true in Python and false here. |
| Template.ChainIsConjunction | rsi_arena/core/template.py:166-176 | A chained comparison equals the short-circuiting conjunction of its adjacent pairs, failures included. |
| Template.Resolve | rsi_arena/core/template.py:30-45 | The loop over the parts of a dotted path finds what the recursive walk finds, or nothing. |
| Template.RenderSucceedsIff | rsi_arena/core/template.py:59-79 | Rendering fails if and only if some placeholder does not resolve. |
| Template.MissingRootFails | rsi_arena/core/template.py:59-79 | A template with a root that state lacks never renders. |
| Template.PresentRootsFailDeeper | rsi_arena/core/template.py:30-45 | With all roots present a failure is about a path that breaks below a root. |
| Template.RenderFrame | rsi_arena/core/template.py:82-93 | Rendering depends on state only through the roots that `reads` reports. |
| Template.RenderConcat | rsi_arena/core/template.py:59-79 | A template is rendered piece by piece, up to the first piece that fails. |
| Template.PartIs | rsi_arena/core/template.py:30-45 | The last part of a path is a key of a dict, an index of a list where it is digits and in range, and an attribute of anything else; a key or an index that is missing is found nowhere else. |
| Retry.WithRetry | rsi_arena/core/retry.py:71-102 | Verdict and attempts as specified; one sleep fewer than attempts; a delay the server named is slept as it is, any other is a share of the computed ceiling. |
| Retry.OutcomeFrom | rsi_arena/core/retry.py:80-102 | All attempts before the last allowed another, the last one decides, and a failure means the attempts were used up or the last was not retryable. |
| Retry.SucceedsIff | rsi_arena/core/retry.py:80-102 | A call succeeds if and only if some allowed attempt succeeds with nothing but retryable failures before it. |
| Retry.CeilingGrows | rsi_arena/core/retry.py:47-50 | No backoff ceiling is above the maximum; they rise from attempt to attempt with a multiplier of one or more, and fall with one between zero and one. |
| Retry.CeilingMultiplies | rsi_arena/core/retry.py:47-50 | The first ceiling is the initial backoff and each next one the multiplier times the one before, cut at the maximum. |
| Runtime.StepContext.Set | rsi_arena/agent/steps.py:66-69 | Writes "last" and, if the key is not empty, the key; nothing else. |
| Runtime.StepContext.Ask | rsi_arena/agent/steps.py:231-247 | One completion inside a span of its own: state, books and counters as the interpreter function says, raising when billing crossed the ceiling. |
| Runtime.StepContext.Land | rsi_arena/agent/tools.py:204-228 | A call that returns is billed, then its span closes; True when billing crossed the ceiling. |
| Runtime.StepContext.Spawn | rsi_arena/agent/tools.py:373-376 | Every known tool of a turn opens a span under the current one before any of them returns. |
| Runtime.StepContext.Drain | rsi_arena/agent/tools.py:373-376 | The scheduler loop: calls return in the order the outside picks until one raises; what is left stays in the air. |
| Runtime.StepContext.CallMany | rsi_arena/agent/tools.py:373-376 | A whole turn of concurrent calls, the unknown tool and the crossed ceiling included. |
| Runtime.StepContext.ToolLoop | rsi_arena/agent/steps.py:231-261 | The tool loop of a prompt step, turn by turn. |
| Runtime.StepContext.RunPrompt | rsi_arena/agent/steps.py:208-302 | A prompt step: rendering, streaming or tool loop, citations, schema. |
| Runtime.StepContext.RunTool | rsi_arena/agent/steps.py:327-343 | A tool step: all arguments are rendered first, then the tool is looked up, called and billed. |
| Runtime.StepContext.ShouldStop | rsi_arena/agent/steps.py:424-465 | The two stop tests of a loop, the cheap one first. |
| Runtime.StepContext.RunLoop | rsi_arena/agent/steps.py:399-422 | The loop step, its counters written, results collected and the outer counters restored. |
| Runtime.StepContext.Execute | rsi_arena/agent/steps.py:132-148 | Skip test, pre-flight check, span, run, output into state, in that order. |
| Runtime.StepContext.RunSteps | rsi_arena/agent/steps.py:477-481 | The plan loop, stopped by the first error. |
| Stopping.StepLeavesOutput | rsi_arena/agent/steps.py:132-148 | A step that ran leaves its result under "last" and its key; a skipped one changes neither state nor ledger and hands on what was last; a refused one changes nothing at all. |
| Stopping.StepRefusedIff | rsi_arena/agent/steps.py:140-143 | A step that is not skipped is refused, and then changes nothing, if and only if the recorded calls have reached `max_calls` or the total the limit. |
| Stopping.PlanAnswerIsLast | rsi_arena/agent/steps.py:477-481 | A plan that ended well answers with what its last step handed on, which is under "last", skipped steps included. |
| Answers.FetchBrings | rsi_arena/core/retry.py:80-102 | A cached completion costs and posts nothing; any other is what the first attempt to succeed brought, each attempt a post and all before it retryable failures. |
| Answers.AskTells | rsi_arena/agent/steps.py:231-247 | A completion ends well exactly if one came and the total kept to the ceiling in force; its span says which, of what kind it is and what it cost, and the ledger has one record for it. |
| Answers.PromptAnswers | rsi_arena/agent/steps.py:208-302 | A prompt without schema that ends well hands on the text of the completion that answered its last request, streamed or not, adds that one's citations to those there were unless streamed, changes nothing else in state, and never fails on its text. |
| Answers.SchemaReadsAnswer | rsi_arena/agent/steps.py:208-302 | A schema changes only how that text is read: the parsed value where it parses, a failure exactly where it does not. |
| Answers.StreamIsOneCall | rsi_arena/agent/steps.py:226-230 | A streamed prompt is one completion of one attempt, whatever calls it asks for. |
| Answers.ToolAnswers | rsi_arena/agent/steps.py:327-343 | A known tool whose arguments render is billed once if its answer is priced, and hands on its output, or the error where that may fail; a crossed ceiling and a refused tool are the failures, and the span says so. |
| Answers.LandTells | rsi_arena/agent/tools.py:204-228 | A concurrent call is billed once if its answer is priced; its span ends well exactly if the tool did and the ceiling was not crossed. |
| Answers.StopMeans | rsi_arena/agent/steps.py:424-465 | The stop test says stop exactly if the condition is met, asking nobody, or else the model answers with a dict that says done. |
| Answers.LoopAnswers | rsi_arena/agent/steps.py:399-422 | A loop hands on all results of its passes or the last, at most `max_loops` and exactly that many without a stop test, the last being what its last step handed on; they are published unless an outer loop has its own. |
| Answers.StepSpanTells | rsi_arena/agent/steps.py:132-148 | The span of a step says whether it was a step, a loop or skipped, and how it ended. |
| Stopping.ToolLoopEnds | rsi_arena/agent/steps.py:231-261 | A prompt ends with an answer that asks for no call, or with its turns used up; only then may calls of the last answer go unanswered. |
| Stopping.LoopKeepsResults | rsi_arena/agent/steps.py:399-422 | A loop keeps one result a pass in order, makes at most `max_loops` passes, exactly that many without a stop test, and publishes the results after each. |
| Stopping.EarlyEndIsCondition | rsi_arena/agent/steps.py:404-427 | A loop that asks no model ends early only in a state where its `until` condition holds. |
| Stopping.PlanKeepsCounter | rsi_arena/agent/steps.py:400-421 | Steps that do not write a loop counter themselves give it back as it was, whatever loops they run inside. |
| Stopping.LoopCountsPasses | rsi_arena/agent/steps.py:404-416 | At the end of a loop its index and iteration show the last pass it made, nested loops or not. |
| Stopping.TripIgnoresOrder | rsi_arena/agent/tools.py:373-376 | Whether the calls of one turn cross the ceiling depends on their cost together and not on the order in which they return. |
| Stopping.TotalIgnoresOrder | rsi_arena/agent/tools.py:373-376 | If they do not cross it, the ledger ends with the same total in every order. |
| Stopping.ExecAllHonest | rsi_arena/core/costs.py:239-253 | A plan that ends with a budget error leaves a ledger that refuses, also after calls still in the air have landed. |
| Conservation.LandsMoves | rsi_arena/agent/tools.py:204-228 | A concurrent call that returns is billed at most once and closes its own span: a legal stretch after which the others are in the air as before. |
| Conservation.LandsFrame | rsi_arena/agent/tools.py:204-228 | It leaves every other span exactly as it was. |
| Conservation.BatchMoves | rsi_arena/agent/tools.py:373-376 | What a turn of calls did, ending well or not, is legal action by action, in the order in which it did it. |
| Conservation.ExecProgress | rsi_arena/agent/steps.py:132-148 | So is what any step did, in any steady state, against any outside. |
| Conservation.ExecAllProgress | rsi_arena/agent/steps.py:477-481 | And what a whole plan did: it is back at its span, and on success nothing is in the air and the ceiling is not crossed. |
| Spending.StragglesSpends | rsi_arena/agent/tools.py:373-376 | Calls landing late turn what was outstanding into what is recorded: the sum of both is conserved. |
| Spending.ExecAllBounded | rsi_arena/core/costs.py:239-253 | For any plan and outside, what is recorded and in the air exceeds the ceiling by at most the last request: one completion, one tool or one turn of calls. |
| Effort.ExecAllMade | rsi_arena/agent/steps.py:231-261 | Completions of any run of a plan are at most its static budget, posts at most the allowed attempts for each. |
| Effort.IterationsMade | rsi_arena/agent/steps.py:399-465 | A loop makes at most its passes times the budget of its body and the stop question. |
| Effort.ExecAllKeys | rsi_arena/agent/steps.py:486-507 | Keys are never removed, and a new key is written by the plan or is one of the runtime's own. |
| Effort.OmittedInputNeverAppears | rsi_arena/agent/steps.py:500-507 | A required input that was left out, and that the runtime does not write, is available to no step of the run. |
| Effort.MissingInputStopsPrompt | rsi_arena/agent/steps.py:208-209 | A prompt that needs a missing name fails on it before anything is asked or changed. |
| Effort.NestedLoopRestores | rsi_arena/agent/steps.py:400-421 | A loop that ends normally gives the enclosing loop its index, iteration and results back as they were. |
| Preflight.ExecAllFine | rsi_arena/agent/steps.py:486-507 | The run of a plan whose steps find what they need in what was defined before misses no root, whatever the outside does: a path that is not found has its root in state. |
| Preflight.PreflightSound | rsi_arena/agent/steps.py:500-507 | For define-before-use plans, supplying the required inputs rules out a missing root, under a dotted placeholder too. |
| PreflightExact.ExecAllWilling | rsi_arena/agent/steps.py:477-481 | Against an outside that answers everything a regular plan ends well exactly if it is ready given what state holds, and then adds exactly what it defines; otherwise it fails on a root that is not there. |
| PreflightExact.PreflightIff | rsi_arena/agent/steps.py:500-507 | For regular plans the required inputs are enough against every outside if and only if the plan defines its names before it uses them. |
| PreflightExact.UnseenNameIsMissed | rsi_arena/agent/steps.py:345-350 | A name in nested tool arguments that nothing else requires or writes makes some run of a regular plan miss a root. |
| Plans.RequiredIff | rsi_arena/agent/steps.py:486-507 | A name is required if and only if a step at some depth uses it, none writes it as its output, and it is none of the built-in names. |
| Preflight.MissingArgumentStopsTool | rsi_arena/agent/steps.py:327-343 | A tool step fails on a missing name at any depth of its arguments before the tool is called or anything changed. |
| Preflight.NestedArgumentGap | rsi_arena/agent/steps.py:345-350 | Names inside nested tool arguments are not required, and the run fails on them. |
| Preflight.SkipIfGap | rsi_arena/agent/steps.py:118-123 | Names in `skip_if` are not required, and the run fails before the step opens. |
| Preflight.BuiltInGap | rsi_arena/agent/steps.py:102-107 | `state` and `now` count as built in and are provided by no one. |
| Preflight.UntilGap | rsi_arena/agent/steps.py:380-385 | Names of an `until` expression outside double braces are not required, and the first stop test fails on them. |
| Agent.BailOutOn | rsi_arena/agent/agent.py:340-371 | The reserve is opened and exactly one call without tools is made from the root; an overshooting call is recorded and its answer dropped. |
| Agent.Run | rsi_arena/agent/agent.py:253-336 | The whole run on its objects computes the specified result. |
| Agent.StartIs | rsi_arena/agent/agent.py:139-153 | A run starts with its inputs and the question in state, nothing recorded, and a reserve of nothing, of what was configured, or of the larger of two cents and a twentieth of the ceiling. |
| Agent.AnswerOfRun | rsi_arena/agent/agent.py:300-371 | A run that ended well answers with what its last step handed on; one that its ceilings stopped with the last value there was, or with the text of the bail-out exactly if that came and kept to ceiling and reserve; any other error leaves no answer. |
| Agent.RunEndsAtRoot | rsi_arena/agent/agent.py:300-336 | What any run did, bail-out included, is legal, and it ends at the root with only the calls in the air still open. |
| Agent.EveryPointConserved | rsi_arena/agent/agent.py:300-336 | The log of any run of any agent explains its books, and at every point of the log trace and ledger agree and spans nest. |
| Agent.FinishedRunBalances | rsi_arena/core/trace.py:253-279 | After `finish` exactly the calls a failed turn left in the air are still running, none after a run without error; opens and closes are balanced and nested, totals equal. |
| Stragglers.TurnLeavesNoneIff | rsi_arena/agent/tools.py:373-376 | A turn ends well exactly if its tools are known and its calls do not cross the ceiling together; it leaves none in the air, whatever the order of return, if and only if they do not cross it with one of them left out, or, where a tool is unknown, none of them is known. |
| Stragglers.TurnEnds | rsi_arena/agent/tools.py:373-376 | In the figures of its calls: a turn fails on an unknown tool if it has one, and else on the ceiling in force if and only if something is priced and the prices together cross it, in whatever order they land. |
| Stragglers.CalmRunLeavesNone | rsi_arena/core/trace.py:253-279 | If no answer asks for more than one call, or there is no ceiling and every tool asked for is known, no span is running after `finish`. |
| Stragglers.CallOutlivesRun | rsi_arena/agent/tools.py:373-376 | Otherwise one may be: two calls of one turn, each too dear, end a run with one of them in the air and its span running in a finished trace. |
| Agent.PlanStopsInTime | rsi_arena/agent/steps.py:132-148 | In the figures of its own log, the run of any plan opens nothing once more money is billed than allowed, and a step or loop only while fewer calls are billed than `max_calls` and less money than `max_usd`. |
| Agent.RunStopsInTime | rsi_arena/agent/agent.py:300-371 | So does a whole run, which opens one thing more, right after the reserve is released: the call of the bail-out. |
| Agent.SpendCeiling | rsi_arena/agent/agent.py:300-371 | Without error the total is within `max_usd`; `bailed_out` implies total at most `max_usd` plus reserve; no run exceeds the ceiling by more than its last request and the one bail-out call. |
| Agent.WorkOfRun | rsi_arena/agent/agent.py:300-371 | Completions are at most the plan's budget, one more if and only if a bail-out was tried; final keys are inputs, plan keys, runtime keys and `bailout_answer`. |
| Agent.CeilingIsUsedUp | rsi_arena/core/costs.py:247-253 | A run that its ceilings stopped had used up the calls or the money. |
| Agent.ErrorsMean | rsi_arena/agent/agent.py:79-94 | Each error kind means what it says: max-spend or budget a ceiling with or without the mode, provider a completion that did not come, plan a placeholder, a tool or a condition that is wrong; a max-spend error claims an answer exactly when the text is not empty. |
| Notes.RenderState | rsi_arena/agent/agent.py:508-529 | The loop over the newest notes first computes the lines that the next lemma describes. |
| Notes.ShownExactly | rsi_arena/agent/agent.py:508-529 | A note is shown if and only if it is the newest or the newer ones in full leave something of the budget; only the last line may be shortened, to 200 characters at least. |
| Notes.NewestAre | rsi_arena/agent/agent.py:508-529 | The notes are those with something in them that are no question, loop counter or earlier answer, from the newest to the oldest. |
| Notes.DigitsBack | rsi_arena/agent/agent.py:521-524 | The number of characters said to be dropped reads back as what it is. |
| Notes.NewestCrowdsOut | rsi_arena/agent/agent.py:509-514 | Against its documentation: the newest note stands alone exactly when there is no other or its body reaches the budget. |
| Lru.MemoryCache.Lookup | rsi_arena/core/cache.py:99-112 | The get: a hit moves to the end, an expired entry goes, one of the two counters rises. |
| Lru.MemoryCache.Store | rsi_arena/core/cache.py:114-120 | The set and its eviction loop leave the newest entries within the bound. |
| Lru.AfterKeepsBound | rsi_arena/core/cache.py:114-120 | Keys are unique and the size is within the bound after any history. |
| Lru.HitIsLastSet | rsi_arena/core/cache.py:99-112 | A hit returns the last value set for the key since the last clear, never an expired one. |
| LruHits.HitIff | rsi_arena/core/cache.py:99-120 | A get answers a value if and only if the key was last set to it, this and every get of the key in between came within its lifetime, nothing was cleared since, and there were always fewer newer keys than room. |
| LruHits.FewOthersHit | rsi_arena/core/cache.py:99-120 | So it does, within the lifetime, while fewer other keys than `max_entries` were touched since the set. |
| Lru.LargerIncludesSmaller | rsi_arena/core/cache.py:99-120 | On the same timed history the larger cache contains the smaller one's entries with equal values and expiries, in the same order. |
| Lru.LargerNeverMissesMore | rsi_arena/core/cache.py:99-120 | Where the smaller hits the larger hits with the same value, and no history has more hits in the smaller. |
| SingleFlight.Broker.Enter | rsi_arena/core/cache.py:66-81 | The stretch up to the first await: a hit, a place behind the running leader, or the lead. |
| SingleFlight.Broker.Finish | rsi_arena/core/cache.py:76-79 | A producer's result is stored, the future resolved and the entry taken out in one stretch. |
| SingleFlight.Broker.Fail | rsi_arena/core/cache.py:163-175 | A failure or cancellation resolves the future with it and takes the entry out. |
| SingleFlight.EveryPointOk | rsi_arena/core/cache.py:145-175 | At every point of every interleaving the table holds exactly the running leaders, and a resolved future is its leader's outcome. |
| SingleFlight.SingleFlightSafe | rsi_arena/core/cache.py:148-175 | At most one producer per key is in flight, and a follower ends with its own leader's outcome. |
| SingleFlight.NobodyElsesAnswer | rsi_arena/core/cache.py:145-175 | In any interleaving the value a caller ends with, by a hit, its own producer or the one it followed, was returned by a producer for the key it arrived with, or put in the cache under that key. |
| SingleFlight.ProducedAtMostOnce | rsi_arena/core/cache.py:61-81 | Producer calls for a key that returned a payload are at most one more than its evictions, expiries and clears. |
| SingleFlight.FollowersPayAgain | rsi_arena/llm/client.py:450-461 | One producer call is billed once for its leader and in full again for every follower that got the result; hits are billed nothing. |
| Ratelimit.RateLimiter.TryOnce | rsi_arena/core/ratelimit.py:78-93 | One turn under the lock: paused, unmetered, granted or told how long to sleep. |
| Ratelimit.RateLimiter.WaitForTokens | rsi_arena/core/ratelimit.py:76-94 | The waiting loop stops at the first wake-up that is granted and at no other. |
| Ratelimit.RateLimiter.Acquire | rsi_arena/core/ratelimit.py:62-70 | A permit is held after it exactly when the caller is inside; a cancelled wait gives it back. |
| Ratelimit.WindowBound | rsi_arena/core/ratelimit.py:76-94 | Under any interleaving of waiters and pauses, the costs admitted in any stretch of time are at most the capacity and what the rate refills in it. |
| Ratelimit.PauseHolds | rsi_arena/core/ratelimit.py:96-98 | No one is let in before a pause is over, whatever other pauses follow. |
| Ratelimit.PauseIsSleptOut | rsi_arena/core/ratelimit.py:76-94 | A try during a pause changes nothing and is told to sleep to the very end of it; no shorter sleep is enough. |
| Ratelimit.PauseExtends | rsi_arena/core/ratelimit.py:96-98 | A pause lasts as long as it says and shortens no longer one. |
| Ratelimit.EmptyPause | rsi_arena/llm/client.py:469-475 | A delay of zero or less pauses nobody. |
| Ratelimit.LoneWaiter | rsi_arena/core/ratelimit.py:76-94 | A waiter nobody disturbs is let in by its second try if and only if its cost fits the capacity. |
| Ratelimit.DelayIsLeast | rsi_arena/core/ratelimit.py:76-94 | And the delay it is told is the least: any sooner it is refused again. |
| Ratelimit.PermitsConserved | rsi_arena/core/ratelimit.py:62-74 | Permits free and held add up to the concurrency on every path, cancellation included. |
| Ratelimit.PassIs | rsi_arena/core/ratelimit.py:62-74 | Each pass moves its own caller on, or out, takes or gives back a permit accordingly, and moves nobody else. |
| KalshiClient.RateLimiter.TakeOnce | topics/kalshi/tools/_client.py:58-69 | One look under the lock: refill, take, or how long to sleep. |
| KalshiClient.ClientIsSimulated | topics/kalshi/tools/_client.py:41-69 | Whatever callers ask and when, every request the client lets out is admitted by a bucket of `per_second`, for `per_second` of one or more and safety up to one. |
| KalshiClient.KeepsToBudgetIff | topics/kalshi/tools/_client.py:41-69 | The exchange admits everything the client lets out, over all timed sequences of requests or over those for one token each, if and only if the budget is at least one a second and the safety factor at most one. |
| KalshiClient.WorstSecond | topics/kalshi/tools/_client.py:51-69 | In any second at most twice the client's capacity goes out. |
| KalshiClient.WorstSecondIsReached | topics/kalshi/tools/_client.py:51-69 | And that much can. |
| KalshiClient.Paginate | topics/kalshi/tools/_client.py:164-184 | Yields the pages up to the one without cursor or items, cut at `max_items`; zero does not cut and a negative number still lets one item through. |
| KalshiClient.ListingIs | topics/kalshi/tools/_client.py:164-184 | A listing is the items of the first pages, up to and with the first one that has no cursor or no items. |
| Events.RunStream.EndRun | server/events.py:63-75 | A finished or failed run puts its report and then the sentinel, a cancelled one the sentinel alone. |
| Events.RunStream.Step | server/events.py:79-104 | One turn of either draining loop. |
| Events.MergeIsLossless | server/events.py:79-107 | For any number of runs and any interleaving, what was sent is what was put and taken out, in queue order; `remaining` counts the runs and sentinels to come; `done` is the last and only once. |
| Events.NeverStuck | server/events.py:81-99 | The drainer always has a message or a running producer to wait for. |
| Events.LostExactlyLate | server/events.py:96-100 | A closed stream has lost exactly the hooks that fired after it closed. |
| Events.InsideLosesNothing | server/events.py:49-107 | With hooks that keep to their runs a closed stream sent everything and then `done`. |
| Events.OneEndSent | server/events.py:63-75 | Every side that was not cancelled is told as ended or failed exactly once. |
| Events.EndsAreTold | server/events.py:63-75 | A closed stream has sent the end of exactly the sides that finished and the failure of exactly those that failed. |
| Fees.FeeInCents | topics/kalshi/tools/_fees.py:29-33 | Over all prices a contract costs nothing, one cent or two, by the stated thresholds; the cap never binds, and at 50 cents the fee is two cents where the documentation says 1.75. |
| Fees.FeeSymmetricUnimodal | topics/kalshi/tools/_fees.py:29-33 | The fee is symmetric about one half and grows toward it. |
| Fees.BreakevenIs | topics/kalshi/tools/_fees.py:45-63 | A price has no edge exactly at the price plus its fee, or both fees for a round trip. |
| Fees.ExpectedPnlIsEdge | topics/kalshi/tools/_fees.py:92-116 | The expected result of a trade on either side is its contracts times the edge at that side's probability. |
| Fees.KellyFollowsEdge | topics/kalshi/tools/_fees.py:65-78 | With a cost inside (0, 1) the stake is positive exactly when the edge is, equals the fraction of edge over win, and never exceeds the fraction for a probability. |
| Implied.ProbRoundTrip | topics/kalshi/tools/_implied.py:14-25 | Probability to American odds and back is the identity on (0, 1). |
| Implied.OddsRoundTrip | topics/kalshi/tools/_implied.py:14-25 | Odds to probability and back is the identity if and only if the odds are below -100 or at least 100. |
| Implied.OddsAreFair | topics/kalshi/tools/_implied.py:14-18 | Negative odds are what wins a hundred and others what a hundred wins: at the implied probability neither side expects a gain. |
| Implied.ProportionalIsFair | topics/kalshi/tools/_implied.py:54-56 | Proportional results sum to one and keep the order and the ratios of the outcomes. |
| Implied.PowerExponent | topics/kalshi/tools/_implied.py:57-64 | Sixty halvings leave the exponent within 2.5/2^61 of the one from which on the set sums to one or less, or of the end of [0.5, 3] on its side. |
| Implied.RootIsThreshold | topics/kalshi/tools/_implied.py:57-64 | Where the sum falls strictly that exponent is the one at which it is exactly one. |
| Implied.Power | topics/kalshi/tools/_implied.py:57-65 | The power method keeps the order of the outcomes. |
| Coherence.BuyAllNeedsExhaustive | topics/kalshi/tools/_coherence.py:155-163 | A buy-all finding earns its net in exactly the settlements where some leg settles yes, and a dollar more for each further one. |
| Coherence.SellAllNeedsExclusion | topics/kalshi/tools/_coherence.py:165-173 | A sell-all finding earns its net in exactly the settlements where at most one leg settles yes. |
| Coherence.ComplementNeedsMore | topics/kalshi/tools/_coherence.py:117-120 | Two legs are taken for a complement without asking for exclusion: two rungs of one ladder are reported and lose when both settle yes. |
| Coherence.SpreadIsLocked | topics/kalshi/tools/_coherence.py:192-204 | An adjacent-strike finding earns its net whatever the outcome, a dollar more between the strikes. |
| Coherence.ButterflyByRegion | topics/kalshi/tools/_coherence.py:206-220 | A butterfly earns its net, a dollar more or a dollar less, by the region the outcome falls in. |
| Coherence.ButterflyIsRisklessIff | topics/kalshi/tools/_coherence.py:213-220 | It never costs more than it pays if and only if it nets a dollar or more, or its two upper strikes are one; the finding claims it of any net. |
| Coherence.ConvexityIsRisklessIff | topics/kalshi/tools/_coherence.py:110-124 | Every convexity finding of an event is a butterfly on three rungs of one subject, riskless exactly then. |
| Coherence.ConvexityFindingLoses | topics/kalshi/tools/_coherence.py:206-220 | An event whose reported butterfly nets over thirty cents and loses over sixty. |
| Coherence.SetSizeFits | topics/kalshi/tools/_coherence.py:163-173 | The size of a set finding can be traded on every leg and uses up one. |
| Coherence.ButterflySizeFits | topics/kalshi/tools/_coherence.py:216-220 | So can the size of a butterfly, whose middle leg is sold twice. |
| Coherence.SpreadSizeFits | topics/kalshi/tools/_coherence.py:194-204 | The size of a spread is on both its legs and uses up one. |
| Ladders.ScanSeesNeighbours | topics/kalshi/tools/_coherence.py:194-204 | The scan reports something if and only if two neighbouring rungs are inverted. |
| Ladders.WideInversionIsSeen | topics/kalshi/tools/_coherence.py:194-204 | An inversion of any two rungs that is wider than the spreads between them together is betrayed by two neighbours on the way. |
| Ladders.HiddenIff | topics/kalshi/tools/_coherence.py:194-204 | For ladders of any length with the rungs between quoted: an inversion can go unreported if and only if it is no wider than those spreads together. |
| Ladders.MissingQuoteHidesAny | topics/kalshi/tools/_coherence.py:194-204 | Behind a rung without quotes an inversion of any width can go unreported. |
| Ladders.FirmQuotesHideNothing | topics/kalshi/tools/_coherence.py:194-204 | Where every rung has bid equal to ask, any inverted pair is betrayed by a neighbouring one. |
| Ladders.SpreadsHideInversions | topics/kalshi/tools/_coherence.py:194-204 | Two ladders of three rungs that hide twenty cents, one behind a spread and one behind a missing quote. |
| Coherence.OneLadder | topics/kalshi/tools/_coherence.py:188-221 | The two scans of one ladder. |
| Coherence.Group | topics/kalshi/tools/_coherence.py:177-181 | Groups by subject in the order first seen, each group in the order its legs came. |
| Coherence.Ladder | topics/kalshi/tools/_coherence.py:176-186 | One sorted ladder after the other. |
| Coherence.CheckEvent | topics/kalshi/tools/_coherence.py:110-124 | The dispatch between the checks and the filter on tradeable findings above the threshold. |
| Coherence.Keep | topics/kalshi/tools/_coherence.py:124-124 | The filter keeps exactly the tradeable findings above the threshold, in order. |
| Coherence.KeptIs | topics/kalshi/tools/_coherence.py:124-124 | A finding is kept if and only if it is tradeable and nets at least the threshold. |
| Coherence.SetFindingsExact | topics/kalshi/tools/_coherence.py:117-163 | A partition is reported if and only if the event is exclusive with more than two legs, a complement if and only if there are two, and all are asked (or bid) with what is left of a dollar after prices and fees positive and at the threshold, at a size that fits every leg. |
| Coherence.LadderFindingsComplete | topics/kalshi/tools/_coherence.py:176-221 | Whatever two neighbours or three in a row of a subject's ladder show is reported, if it can be traded and reaches the threshold. |
| Coherence.MonotonicityIsSound | topics/kalshi/tools/_coherence.py:110-124 | Every monotonicity finding of an event is a spread on two rungs of one subject that earns its net, at least the threshold, in every outcome. |
| Sorting.SortSorts | topics/kalshi/tools/_coherence.py:185-185 | The sort by strike is a permutation in ascending order. |
| History.FetchCandles | topics/kalshi/tools/_history.py:156-188 | Rejects any interval but the three the exchange knows; the cursor loop collects the chunks and sorts them. |
| History.ChunksTile | topics/kalshi/tools/_history.py:174-187 | The windows tile the span without gap or overlap but at the seams, each within 5000 periods. |
| History.WindowsWithinLimit | topics/kalshi/tools/_history.py:174-187 | No request spans more than five thousand candles of its interval. |
| History.RequestsAsCounted | topics/kalshi/tools/_history.py:334-344 | Their number is the estimate for every window that has a length; for an empty one the estimate is one and none is made. |
| History.ChunkedAgainstSingle | topics/kalshi/tools/_history.py:174-188 | Against an exchange that includes both bounds the result is in order and has every candle of one single fetch once, and twice exactly if it lies on a seam. |
| History.QuoteIsLatest | topics/kalshi/tools/_history.py:198-209 | The quote is the latest candle at or before the instant, and there is none exactly if the last 240 periods have none. |
| History.QuoteSeesNoFuture | topics/kalshi/tools/_history.py:198-209 | A quote depends on nothing after its instant, even if the exchange answers with more than it was asked. |
| History.CandlesSeeNoFuture | topics/kalshi/tools/_history.py:156-188 | Nor does a fetch that ends at the instant, given an exchange that keeps to the end of a request. |
| History.ClippedPathStopsAtClose | topics/kalshi/tools/_history.py:211-225 | A clipped path has nothing from after the close. |
| History.PathHas | topics/kalshi/tools/_history.py:211-225 | A path has exactly the candles from its start to what was asked for, else to the close or the present if that is sooner, clipped to the close at most. |
| History.ClosingQuote | topics/kalshi/tools/_history.py:236-239 | The last two-sided candle, else the last one, else none. |
| Replay.ScoreAt | topics/kalshi/eval/_replay.py:86-103 | The loop counts each side's goals up to the clock. |
| Replay.StateIs | topics/kalshi/eval/_replay.py:108-123 | The state has the goals of either side by the instant, the minute that has begun, and the newest four events of the last ten minutes. |
| Replay.ScoreReachesFinal | topics/kalshi/eval/_replay.py:86-106 | Neither side is ever above its final score, and it is reached with the last goal. |
| Replay.GoalsPartition | topics/kalshi/eval/_replay.py:97-102 | Each goal by the clock is on exactly one side. |
| Replay.OwnGoalCountsForItsTeam | topics/kalshi/eval/_replay.py:65-72 | An own goal, wherever it stands, adds one to the side it is filed under, home or away, and nothing to the other, against the note beside it. |
| Replay.Windows | topics/kalshi/eval/_replay.py:125-137 | All instants from the first on, the given minutes apart, up to the last allowed. |
| Replay.RealisedMid | topics/kalshi/eval/_replay.py:187-199 | The mid of the quote some minutes on, exactly when that quote is two-sided. |
| Replay.StateSeesNoFuture | topics/kalshi/eval/_replay.py:108-123 | The state of the game is the same in two worlds with the same past. |
| Replay.TapeIsNewest | topics/kalshi/eval/_replay.py:252-270 | For a limit that is not negative the tape is the newest prints of the 3600 seconds before the instant. |
| Replay.NegativeTape | topics/kalshi/eval/_replay.py:252-270 | A negative limit drops as many of the newest fifty prints of the hour from the old end. |
| Replay.FrozenShows | topics/kalshi/eval/_replay.py:210-242 | The frozen quote is the latest candle of the last four hours, if there is one, and the frozen path has the candles from the start to the instant, or to the close if that is sooner. |
| Replay.ReplaySeesNoFuture | topics/kalshi/eval/_replay.py:202-272 | Two worlds that agree up to an instant give the same answers from all three frozen tools at it. |
| Linking.MatchIsGrammar | topics/kalshi/tools/_linking.py:40-43 | A segment matches if and only if the grammar has a reading of it; the reading with a time is preferred, and each is unique. |
| Linking.ParsesIff | topics/kalshi/tools/_linking.py:77-117 | A ticker parses if and only if what follows its series, up to the next dash, reads as a real date. |
| Linking.PrintParse | topics/kalshi/tools/_linking.py:77-117 | Parsing a printed ticker recovers every field if and only if the fixture has a time, or its blob has at most four characters, or does not begin with four digits; otherwise those digits are read as the time. |
| Linking.ParsedIsSensible | topics/kalshi/tools/_linking.py:77-117 | Whatever parses has a real date of this century, a blob, and a time of day if any. |
| Linking.MonthNumbers | topics/kalshi/tools/_linking.py:36-38 | January is 1 and so on to December. |
| Linking.SplitTeamBlob | topics/kalshi/tools/_linking.py:207-222 | The most balanced split into two known codes of two characters at least, the smaller left code on a tie; none exactly when there is no split. |
| Linking.ShorterPrefixIsLess | topics/kalshi/tools/_linking.py:221-222 | Of two left codes of one blob the shorter sorts first, so the tie-break of the sort is the one above. |
| Linking.KeyIsFixture | topics/kalshi/tools/_linking.py:343-369 | All markets on a fixture, and its event, have the fixture as key, whatever series and outcome. |
| Linking.OtherwiseSeries | topics/kalshi/tools/_linking.py:343-369 | What is no dated fixture is keyed by its series. |
| Linking.DatedIsSegment | topics/kalshi/tools/_linking.py:343-369 | Dated is exactly what the segment grammar reads, real date or not. |
| Linking.NumberedEventKeyedApart | topics/kalshi/tools/_linking.py:343-369 | Against its documentation: an event that ends with a map or game number never has the key of its own markets. |
| Linking.NamesFromMarkets | topics/kalshi/tools/_linking.py:391-422 | Exactly the codes that some market labels with a club, each with the shortest of its names, the first one of equals. |

## Left out

Of the run:

- The conversation: message lists, step memory, prompt and system text, schemas sent to a model, token callbacks. An answer is an oracle value, so what was sent cannot matter to the properties here.
- The text of templates and conditions: a template is its pieces and a condition its parse with the names between double braces; scanning the text for either is not modelled. Python's own operators, `hasattr` and `json.dumps` are parameters.
- Aliasing of lists in state: `loop_results` and `citations` are values here; the source publishes the very list it goes on appending to.
- Spans as heap objects: spans are entries of a table with ids in order of creation. Names, inputs, outputs, annotations, wall-clock times and random ids are not kept.
- Cancellation of a whole run from outside, `raise_on_error`, and a tool argument named `tracer`.
- Runtime.StepContext.Spawn: opens every call of a turn before any of them returns, as calls that run in a thread do. A tool that answers without suspending would close before the next one opens, and the rest of its turn would open even if it crossed the ceiling.
- Runtime.StepContext.CallMany: leaves out the same interleavings.
- Work that lands after a run is over: calls a failed turn left in the air land, any number of them, up to the end of the run, and their spans stay open otherwise.
- Negative costs: an oracle never charges back.
- PreflightExact.PreflightIff: is about plans in which no value decides what runs: no `skip_if`, no `until`, a turn and a pass at least, no placeholder that can break below its root. Preflight.PreflightSound holds for all plans.
- Stragglers.CalmRunLeavesNone: is exact for a turn (`Stragglers.TurnLeavesNoneIff`) and sufficient for a run, whose turns depend on what was answered before.
- Structured completions with a repair round, `complete_many`, `run_many`, serialisation of agents.
- Backoff jitter: a computed delay is the ceiling times any share between 0 and 1.

Of cache, limiters and stream:

- Keys are given; hashing a request into one is not modelled. A negative `max_entries`, which raises in the source, is excluded by type.
- A cache that suspends in `get` or `set`: with one, two callers could both lead in turn; the in-memory cache never suspends.
- Ratelimit.RateLimiter.TryOnce: says nothing of a rate of zero, where the source divides by it; the bounds are for rates above zero and a burst that is not negative.
- Retry-After is read in seconds only (section 10.2.3 of RFC 9110 also has a date); the header reaches the model as a delay or none.
- Ratelimit.RateLimiter.Acquire: starts once the semaphore has let the caller through; the queue of the semaphore is the moves of the gate above it.
- Keepalive comments, and the encoding of events (section 9.2 of the WHATWG HTML Living Standard). Events.RunStream.Step models what is sent, not how.
- Runs added after the stream has begun to drain.
- The retry loop of the exchange client over HTTP, its signing and credentials.

Of the market layer:

- Rounding: prices, fees, odds and times are exact reals or whole seconds; sub-second parts of a request's bounds, which the source truncates, are not modelled.
- Implied.PowerExponent: `p ** k` is a parameter; what is assumed of it is that the sum does not rise with the exponent, as for probabilities of one or less, and that a larger probability has the larger power.
- Ladders.HiddenIff: is about inversions before fees; a neighbouring pair may fall to the threshold where the outer pair would not. The parsing of quotes and subjects from market records, and `partition` called with no legs, which raises, are not part of the model.
- Exchange answers are oracles with the stated contracts; windows, series and events are resolved outside the model, and the present is a parameter.
- Replay.Windows: only for a positive step; with another one the source does not terminate.
- Linking.PrintParse: series override, team codes and digits or a line end outside ASCII are not modelled; Linking.NamesFromMarkets takes labels already stripped.
- Scoring of team names, links between feeds, game-state adapters, order books, tallies, the evaluation store, the web application and its routes: formatting and lookup that would only add easy members.
