# RedKnot: what its drivers and tools promise

RedKnot's benchmark drivers and scripts hold several small algorithms on which the numbers they
print depend. This project models them in Dafny and proves what they promise, for every input,
every interleaving and every reachable state.

| part | files here | models |
|---|---|---|
| Multi-turn workload | `Multiturn`, `MultiturnInvariant`, `MultiturnTheorems`, `MultiturnProgress`, `MultiturnFailures`, `MultiturnReplies`, `WorkloadGenerator` | the sender thread, the request tasks and the response handler of `bench_multiturn.py`, with the round barrier |
| Trace layout | `SpanContainer`, `TraceLayout`, `TraceRule`, `TraceHiding`, `TraceOptimality`, `TraceDriver`, `TraceGraph` | the interval container, the line search and the layout run of `convert_otel_2_perfetto.py` |
| Span tree | `SpanTree`, `SpanPasses` | the tree of spans and the recursive passes over it, on spans in place |
| Conversion | `TraceDrawing`, `TraceConversion` | tree, passes, layout, lines and gathering joined |
| Conversation queue | `Requeue`, `RequeueProofs`, `RequeueTheorems`, `RequeueRest`, `RequeueReplies`, `ConversationQueue` | the bounded queue of `bench_serving.py` to which a conversation returns after every turn |
| Line retrieval | `Redirects`, `LineQueries` | the redirect resolver of `gen_data.py` and the queries made from its output |
| Timed users | `UserQueue`, `UserQueueProofs`, `UserQueueTheorems`, `UserGenerators` | the user generator of `bench_mix.py` |
| Answer texts | `TextSplit`, `BoxedAnswers`, `FixFracs` | the brace scan and the `\frac` repair of `answer_extraction.py` |
| Wheel index | `WheelIndex`, `WheelIndexProofs`, `WheelIndexUpdate` | the read, merge and write of `update_nightly_whl_index.py` |
| Shared | `Sums`, `Sequences` | sums, counts and small lemmas on sequences |

How the models are built:

- The three protocols are transition systems. A step is the stretch of code between two points
  where another thread or task may act. Random draws, clock readings and the outcome of a request
  are arguments of the steps. `IsRun` describes a run from the start; theorems quantify over runs.
- Each protocol also is a class whose methods are the code of the steps. A method promises to do
  exactly what its step does. The object records the states and steps of its calls, and every
  method keeps that record a run, so a theorem about runs speaks of every sequence of calls.
- A request task of `bench_multiturn.py` moves the progress bar in one step and puts its response
  in another. Between the two the event loop does nothing else, but the handler thread may act.
- In `bench_multiturn.py` the sender tests its window and pops in two statements. They are one
  step here, because the handler only ever lowers `sent - completed` in between.
- A task of `bench_serving.py` puts its conversation back and leaves the semaphore in one step. What
  it does in between, closing its connection, touches neither the queue nor the conversation.
- Releasing the held requests is one step per request, so the sender may take one of them before
  the barrier round is raised.
- A span, a client, a conversation and a user are indices of a table, which keeps the sharing the
  Python objects have.

What turned out not to hold, and where the exact condition is:

- The response handler of `bench_multiturn.py` can stop before it has handled everything: its
  `get` times out, a task moves the progress bar, and the handler reads a full bar before the
  response is in the queue. `MultiturnProgress.HandlerLeavesQueue` and
  `RestsCompleteUnlessStoppedEarly` say exactly when something is left behind, `SenderStopsIff`
  exactly when the sender then still stops, and `EarlyStopHangs` is a run after which it waits for ever.
- A failed request can keep both threads running for ever. `MultiturnFailures.RestStopsIff` says
  exactly when a run with failures comes to an end: no task raised, and every failure was in the
  last round of its client and, with the barrier on, of all clients.
- The unchecked shortcut for zero-length spans lets spans overlap on one line.
  `TraceLayout.LayoutApartIff` says exactly when any two do, `TraceHiding.PositiveApartIff` exactly
  when two of positive length do; `TraceDriver.ZeroLengthLetsSpansOverlap` is an example.
- In `bench_serving.py` the generator does not always take every turn: a turn that fails before
  the last one leaves it waiting on an empty queue (`FailureStarves`), and a turn in flight when its
  wait runs out is put back too late (`GivingUpLosesTurns`). `RequeueRest.RestTakesAllIff` says
  exactly when all turns are taken.
- `push` in `bench_mix.py` computes the right position and inserts at another one.
  `UserQueueTheorems.PushSortedIff` says exactly when the queue stays sorted, `TwoPushesUnsorted` is
  an example, `FrontInOrder` says what order remains, and `OpenerGoesLast` what it means: whoever
  enters an empty queue leaves it last.
- A box inside a box hides the outer answer, and a percent sign after a box adds its brace
  (`BoxedAnswers.PayloadsIff` says exactly when the answers are the payloads).
- `randint` includes both ends, so the largest number of rounds is drawn once too often
  (`UserQueueTheorems.RoundsByRatio`).

Where code and comments differ, the code is modelled: the barrier of `bench_multiturn.py` is said
to wait for all clients of a round, but a client that failed is still waited for.

## Model

| member | source | states |
|---|---|---|
| `Sums.DoubleCount` | benchmark/hicache/bench_multiturn.py:263-267 | the sum of `clients_per_round` is `total_requests` |
| `MultiturnInvariant.InitInv` | benchmark/hicache/bench_multiturn.py:255-362 | the start-up state satisfies the invariant: one outstanding request a client, counters that agree, enough sub-questions, rounds on their side of the barrier |
| `MultiturnInvariant.OwnedChange` | benchmark/hicache/bench_multiturn.py:444-516 | when one client's request leaves and its records change, every live client still has exactly one outstanding request, its current one |
| `MultiturnInvariant.FencedArrive` | benchmark/hicache/bench_multiturn.py:518-538 | a success keeps round b in front of the barrier and round b + 1 behind it; the last one leaves no round-b request anywhere |
| `MultiturnInvariant.StoppedQuiet` | benchmark/hicache/bench_multiturn.py:414-415 | with a full progress bar no request is queued, in flight or held back: each is handled, queued as a response, or counted and about to be |
| `MultiturnInvariant.StepInv` | benchmark/hicache/bench_multiturn.py:402-544 | every step of the sender, the tasks and the handler keeps the invariant, failures included |
| `MultiturnInvariant.RunInv` | benchmark/hicache/bench_multiturn.py:402-544 | the invariant holds in every reachable state |
| `MultiturnInvariant.RunExtends` | benchmark/hicache/bench_multiturn.py:402-544 | a run goes on with any step its last state allows, and is a run again |
| `MultiturnTheorems.SuccessesAreRounds` | benchmark/hicache/bench_multiturn.py:458-459 | the successful round-r responses handled so far are the clients past round r |
| `MultiturnTheorems.BarrierHolds` | benchmark/hicache/bench_multiturn.py:513-538 | in every run, a request of a later round is visible to the sender only after exactly `clients_per_round[r]` successes of the round before, one from each client of it |
| `MultiturnTheorems.ReleasedBehindBarrier` | benchmark/hicache/bench_multiturn.py:534-538 | a request is released only when the barrier of the round before it is complete |
| `MultiturnTheorems.CountedInItsRound` | benchmark/hicache/bench_multiturn.py:520-526 | every success counted toward barrier b answers a round-b request, and counts once |
| `MultiturnTheorems.WindowHolds` | benchmark/hicache/bench_multiturn.py:402-409 | `sent - completed` is what is in flight, counted or unhandled, and is between 0 and `max_parallel` |
| `MultiturnTheorems.OneRequestPerClient` | benchmark/hicache/bench_multiturn.py:444-516 | two outstanding requests of one client are the same request, wherever they are |
| `MultiturnTheorems.NeverCrashes` | benchmark/hicache/bench_multiturn.py:292-303 | the pool always covers all remaining rounds, so popping a sub-question never meets an empty list |
| `MultiturnTheorems.HistoryGrows` | benchmark/hicache/bench_multiturn.py:448-457 | a client's history only ever gets longer at its end |
| `MultiturnTheorems.PromptsExtend` | benchmark/hicache/bench_multiturn.py:482-516 | a client's prompt is a prefix of its later prompts |
| `MultiturnProgress.MeasureFalls` | benchmark/hicache/bench_multiturn.py:402-544 | every step that moves a request lowers a measure, and no other step changes it |
| `MultiturnProgress.RunsAreBounded` | benchmark/hicache/bench_multiturn.py:402-544 | no run has more than `8 * total_requests + 1` such steps |
| `MultiturnProgress.CleanCompleted` | benchmark/hicache/bench_multiturn.py:482-485 | without failures, completed counts finished rounds, and all completed means all rounds of all clients |
| `MultiturnProgress.NextStep` | benchmark/hicache/bench_multiturn.py:402-544 | without failures and with `max_parallel >= 1`, some productive step is possible while requests are unhandled |
| `MultiturnProgress.Progress` | benchmark/hicache/bench_multiturn.py:402-544 | the same for every failure-free run, barrier on or off; when all is handled every client has done its rounds and the sender can stop |
| `MultiturnProgress.SenderAbandonsNothing` | benchmark/hicache/bench_multiturn.py:414-433 | the sender's loop never ends while a request is unanswered |
| `MultiturnProgress.HandlerLeavesQueue` | benchmark/hicache/bench_multiturn.py:539-541 | a stopped handler has handled everything if and only if it did not find the bar full while a response was queued, or counted and not yet put |
| `MultiturnProgress.LeftBehind` | benchmark/hicache/bench_multiturn.py:539-541 | what a stopped handler leaves is exactly the queued responses and the one counted and not yet put |
| `MultiturnProgress.SenderStopsIff` | benchmark/hicache/bench_multiturn.py:404-415 | after the handler stopped, the only step left is the sender's stop, possible if and only if fewer than `max_parallel` responses were left |
| `MultiturnProgress.RestsCompleteUnlessStoppedEarly` | benchmark/hicache/bench_multiturn.py:435-544 | a failure-free run at rest has handled everything if and only if the handler did not stop while a response was queued, or counted and not yet put |
| `MultiturnProgress.FailureRunsForever` | benchmark/hicache/bench_multiturn.py:444-447 | after a failure before a client's last round neither thread ever stops |
| `MultiturnProgress.EarlyStopHangs` | benchmark/hicache/bench_multiturn.py:391-394 | a failure-free run in which the handler stops over an empty queue between a task's count and put; a response is left and no thread can take another step |
| `MultiturnFailures.ProgressCounts` | benchmark/hicache/bench_multiturn.py:388-400 | the progress bar is behind the handled, queued and counted responses by exactly the requests whose task raised |
| `MultiturnFailures.RunReach` | benchmark/hicache/bench_multiturn.py:444-447 | with the barrier on, a client fails only in a round the barrier has reached |
| `MultiturnFailures.BarrierWaitsFor` | benchmark/hicache/bench_multiturn.py:520-538 | when held requests are all that is outstanding, the client the barrier waits for has failed |
| `MultiturnFailures.RestStopsIff` | benchmark/hicache/bench_multiturn.py:402-544 | at rest the bar is full if and only if no task raised and every failure was in the last round of its client and, with the barrier on, of all clients |
| `MultiturnFailures.FullBarStops` | benchmark/hicache/bench_multiturn.py:405-541 | at rest with a full bar and the handler in its loop, the sender's loop ends, and the handler's after one more timeout |
| `MultiturnFailures.PollsForever` | benchmark/hicache/bench_multiturn.py:404-541 | at rest without a full bar no step ever changes anything but the handler's timeout |
| `MultiturnReplies.PromptCarriesReply` | benchmark/hicache/bench_multiturn.py:448-512 | over runs: when a request was counted a success with some output, the client's request of the next round is the old prompt, that output and one entry of the start-up pool, the one drawn when the response was handled |
| `MultiturnReplies.PoolShrinks` | benchmark/hicache/bench_multiturn.py:484-486 | the pool is always a prefix of an earlier one: entries are drawn from its end |
| `MultiturnReplies.DrawnOnce` | benchmark/hicache/bench_multiturn.py:484-486 | two draws of a run take different entries of the start-up pool |
| `MultiturnReplies.ServedInOrder` | benchmark/hicache/bench_multiturn.py:183-208 | what was popped, then what is ready or held, is what was ready at the start and what was made since: in this order under the fifo policy, as a multiset under any |
| `MultiturnReplies.HandledInOrder` | benchmark/hicache/bench_multiturn.py:388-447 | the responses handled, then queued, then counted are the results of the tasks, in the order the tasks ended, with the outputs of the successes |
| `WorkloadGenerator.Generator.constructor` | benchmark/hicache/bench_multiturn.py:231-387 | the new generator is a start-up state, and its record the run of no steps |
| `WorkloadGenerator.Generator.Poll` | benchmark/hicache/bench_multiturn.py:405-407 | the sender takes one ready request if and only if the window is open and there is one |
| `WorkloadGenerator.Generator.StartTask` | benchmark/hicache/bench_multiturn.py:407-409 | the taken request is in flight and counted as sent |
| `WorkloadGenerator.Generator.CountTask` | python/sglang/test/kits/cache_hit_kit.py:87-89 | a task with its result moves the progress bar and has its response in hand |
| `WorkloadGenerator.Generator.PutResponse` | benchmark/hicache/bench_multiturn.py:394 | the response joins the response queue |
| `WorkloadGenerator.Generator.RaiseTask` | benchmark/hicache/bench_multiturn.py:395-400 | a task that raised puts a failed response, and the bar does not move |
| `WorkloadGenerator.Generator.StopIfFull` | benchmark/hicache/bench_multiturn.py:405-415 | the sender stops if and only if its window is open and the bar is full |
| `WorkloadGenerator.Generator.HandleNext` | benchmark/hicache/bench_multiturn.py:439-526 | one response is processed exactly as the Handle step says |
| `WorkloadGenerator.Generator.Succeed` | benchmark/hicache/bench_multiturn.py:448-526 | a success extends the history, raises the round, queues the next request and counts at the barrier |
| `WorkloadGenerator.Generator.QueueNext` | benchmark/hicache/bench_multiturn.py:486-516 | the last sub-question is drawn and the next request goes to the ready queue or behind the barrier |
| `WorkloadGenerator.Generator.CountAtBarrier` | benchmark/hicache/bench_multiturn.py:518-526 | a success counts, and the expected count starts the release |
| `WorkloadGenerator.Generator.ReleaseOne` | benchmark/hicache/bench_multiturn.py:534-535 | one held request becomes ready |
| `WorkloadGenerator.Generator.EndRelease` | benchmark/hicache/bench_multiturn.py:536-538 | the barrier moves to the next round |
| `WorkloadGenerator.Generator.GetTimesOut` | benchmark/hicache/bench_multiturn.py:439-443 | with no response queued the handler's wait can run out |
| `WorkloadGenerator.Generator.LookAtProgress` | benchmark/hicache/bench_multiturn.py:539-541 | after a timeout the handler stops if and only if the bar is full |
| `SpanContainer.InsertSorted` | scripts/convert_otel_2_perfetto.py:72-73 | insertion keeps the list sorted and adds exactly one span |
| `SpanContainer.ClearOfAll` | scripts/convert_otel_2_perfetto.py:58-70 | a clear check of two neighbours means the span is apart from every stored one, on the right side of each |
| `SpanContainer.ClearInsertKeepsChain` | scripts/convert_otel_2_perfetto.py:58-73 | inserting after a clear check keeps all spans pairwise apart, negative lengths included |
| `SpanContainer.CheckIsScan` | scripts/convert_otel_2_perfetto.py:58-70 | with positive lengths the two-neighbour check finds an overlap if and only if a scan of all spans does |
| `SpanContainer.PointKeepsChainIffClear` | scripts/convert_otel_2_perfetto.py:98-99 | an unchecked zero-length insertion keeps the spans apart if and only if the check would have been clear |
| `SpanContainer.BisectStart` | scripts/convert_otel_2_perfetto.py:59 | the binary search finds the first span that does not start earlier |
| `SpanContainer.Bisect` | scripts/convert_otel_2_perfetto.py:73 | the binary search finds the place of a span in tuple order |
| `SpanContainer.SpanLayoutContainer.CheckOverlap` | scripts/convert_otel_2_perfetto.py:58-70 | the answer of the two-neighbour check, from a binary search |
| `SpanContainer.SpanLayoutContainer.InsertSpan` | scripts/convert_otel_2_perfetto.py:72-73 | the list with the span inserted, still sorted |
| `TraceLayout.FindLineWf` | scripts/convert_otel_2_perfetto.py:95-120 | the chosen line exists, every remembered line exists, and lines stay 1..n with one slot record each |
| `TraceLayout.PlaceGood` | scripts/convert_otel_2_perfetto.py:280-291 | placing a span keeps the board well-formed and records the span on the chosen line |
| `TraceLayout.LayoutIsComplete` | scripts/convert_otel_2_perfetto.py:268-308 | over a whole run every span is placed once, in order, on a line that exists; each process has lines 1..n with one slot record each |
| `TraceLayout.LayoutApartIff` | scripts/convert_otel_2_perfetto.py:95-120 | spans of a process that share a line never overlap, zero-length ones included, if and only if every unchecked shortcut would have passed; always so without zero-length spans |
| `TraceRule.BlockedIffOverlap` | scripts/convert_otel_2_perfetto.py:58-70 | the check finds an overlap if and only if, of the spans placed on the line, one starts within the span or the latest before it is still running |
| `TraceRule.EverySpanFollowsRule` | scripts/convert_otel_2_perfetto.py:95-120 | over a whole layout: a span goes on the line of its request's previous span of the process if it is zero-length or not blocked there, and else on the lowest line where it is not blocked |
| `TraceRule.BlockedIsOverlap` | scripts/convert_otel_2_perfetto.py:58-70 | among spans of positive length that are apart, blocked means that some span of the line overlaps |
| `TraceHiding.ClearMeetsIff` | scripts/convert_otel_2_perfetto.py:58-70 | a checked span of positive length overlaps a stored one of positive length if and only if the neighbour the check looks at hides a span still running |
| `TraceHiding.PositiveApartIff` | scripts/convert_otel_2_perfetto.py:95-120 | over a whole run, spans of positive length never overlap on a line if and only if none was put where a neighbour hides a span still running; always so when every shortcut would have passed |
| `TraceOptimality.NewLineIsNeeded` | scripts/convert_otel_2_perfetto.py:111-120 | when spans arrive by start time, a new line is opened only when all lines are busy at that instant |
| `TraceOptimality.LinesAreFewest` | scripts/convert_otel_2_perfetto.py:95-120 | for spans of positive length that arrive by start time, the lines are as many as the most spans live at one instant, and no layout without overlaps has fewer |
| `TraceDriver.SortBySorts` | scripts/convert_otel_2_perfetto.py:270-276 | sorting orders by the key and keeps every element |
| `TraceDriver.SortByStable` | scripts/convert_otel_2_perfetto.py:270-276 | spans with equal keys keep their order |
| `TraceDriver.SmgLinesFewest` | scripts/convert_otel_2_perfetto.py:294-308 | for gateway spans of positive length, which the code sorts by start time, the lines are fewest |
| `TraceDriver.OneRootLinesFewest` | scripts/convert_otel_2_perfetto.py:268-292 | so they are for every process of a trace with one request |
| `TraceDriver.ZeroLengthLetsSpansOverlap` | scripts/convert_otel_2_perfetto.py:98-99 | (0,100), (50,50), (60,70) end on one line, where two of them overlap |
| `TraceGraph.FindClear` | scripts/convert_otel_2_perfetto.py:111-114 | the loop finds the first line on which the span overlaps nothing |
| `TraceGraph.Graph.Find` | scripts/convert_otel_2_perfetto.py:95-120 | line, graph and remembered lines after the search, as the line search of the model says |
| `TraceGraph.Graph.OpenNewLine` | scripts/convert_otel_2_perfetto.py:104-120 | one new empty line with its slot record; all other lines untouched |
| `TraceGraph.Graph.InsertInto` | scripts/convert_otel_2_perfetto.py:289-291 | the span joins one line; the containers of all others are untouched |
| `TraceGraph.Graph.PlaceRequest` | scripts/convert_otel_2_perfetto.py:279-291 | all spans of one request are laid out, starting with nothing remembered |
| `TraceGraph.Graph.Run` | scripts/convert_otel_2_perfetto.py:277-308 | the layout of all requests |
| `TraceGraph.GenerateLayout` | scripts/convert_otel_2_perfetto.py:268-308 | the layout of a trace in the order the code sorts it; fails exactly when a request has no spans |
| `SpanTree.DepthBound` | scripts/convert_otel_2_perfetto.py:172-195 | the way up from a span under a request never repeats, so recursion depth is below the number of spans |
| `SpanTree.ParentIff` | scripts/convert_otel_2_perfetto.py:173-185 | a span's parent is the last span with the id it names; a request has none |
| `SpanTree.SubtreeCount` | scripts/convert_otel_2_perfetto.py:225-226 | a pass from a span visits every span below it exactly once and no other |
| `SpanTree.OneChildList` | scripts/convert_otel_2_perfetto.py:179-185 | a span is once in one child list, and a request span in none, for any ids and parents |
| `SpanTree.TopsAreDepthTwo` | scripts/convert_otel_2_perfetto.py:230-252 | the spans of all requests are exactly those two levels below a request, each once |
| `SpanTree.EveryDrawnSpanOnce` | scripts/convert_otel_2_perfetto.py:250-252 | a pass over them visits every span at depth two or more exactly once, cycles and duplicate ids included |
| `SpanTree.MapIds` | scripts/convert_otel_2_perfetto.py:173 | the map holds the last span with each id |
| `SpanTree.BuildTree` | scripts/convert_otel_2_perfetto.py:172-195 | the loop builds the child lists of the last span with each id, and the list of requests |
| `SpanPasses.Convert` | scripts/convert_otel_2_perfetto.py:198-226 | the pass takes 1000 ns off the end of every span at each visit, in place |
| `SpanPasses.CollectTops` | scripts/convert_otel_2_perfetto.py:230-252 | the spans two levels below all requests, in order |
| `SpanPasses.Generate` | scripts/convert_otel_2_perfetto.py:229-252 | every drawn span loses 1000 ns exactly once, and no other span changes |
| `SpanPasses.SetTid` | scripts/convert_otel_2_perfetto.py:261-265 | a span and all below it get the line, and no other span changes |
| `SpanPasses.Gather` | scripts/convert_otel_2_perfetto.py:395-406 | the spans below one span, in the order of the pass |
| `SpanPasses.GatherAll` | scripts/convert_otel_2_perfetto.py:415-417 | whatever order the layout sorted the spans into, every drawn span is gathered exactly once |
| `TraceDrawing.DrawingIsTops` | scripts/convert_otel_2_perfetto.py:269-280 | the order of the layout has every span two levels below a request exactly once |
| `TraceDrawing.OrderMatches` | scripts/convert_otel_2_perfetto.py:269-276 | sorting the spans, and then the requests, orders what the layout is given as the layout theorems say |
| `TraceDrawing.SpansByStart` | scripts/convert_otel_2_perfetto.py:270-272 | within a request the spans are laid out by start time |
| `TraceDrawing.RequestsByStart` | scripts/convert_otel_2_perfetto.py:274-276 | the requests are laid out by the start time of their first span |
| `TraceConversion.DrawRequest` | scripts/convert_otel_2_perfetto.py:278-292 | the spans of one request are laid out, and each line goes to the span and everything below it, without touching lines given before |
| `TraceConversion.ConvertTrace` | scripts/convert_otel_2_perfetto.py:444-457 | the whole conversion: it fails exactly when a request has no spans; otherwise every drawn span has lost 1000 ns once, carries the line of its ancestor two levels below the request, and is gathered once |
| `TraceConversion.AncestorsLine` | scripts/convert_otel_2_perfetto.py:261-292 | a drawn span has the line its one ancestor at depth two was given |
| `TraceConversion.DrawnSpansApart` | scripts/convert_otel_2_perfetto.py:268-308 | two spans of a process drawn on one line are apart in time, when every shortcut would have passed |
| `TraceConversion.DrawnAs` | scripts/convert_otel_2_perfetto.py:198-252 | a span of a request is placed with the process id of its thread span, its own start, and its end less 1000 ns |
| `TraceConversion.GatewayDrawn` | scripts/convert_otel_2_perfetto.py:254-308 | after the spans of the requests come exactly the gateway's spans, each with 1000 ns off its end |
| `RequeueProofs.ReplyOk` | benchmark/hicache/bench_serving.py:172-190 | a good reply makes the messages the dialogue of one more turn |
| `RequeueProofs.StepInv` | benchmark/hicache/bench_serving.py:99-190 | every step keeps the invariant of the queue, the tasks, the semaphore and the log |
| `RequeueProofs.RunInv` | benchmark/hicache/bench_serving.py:414-493 | the invariant holds in every reachable state |
| `RequeueProofs.RunExtends` | benchmark/hicache/bench_serving.py:414-493 | a run goes on with any step its last state allows, and is a run again |
| `RequeueTheorems.PutNeverBlocks` | benchmark/hicache/bench_serving.py:421 | queue and tasks together never hold more than all conversations, so the put never waits for room |
| `RequeueTheorems.OnePlace` | benchmark/hicache/bench_serving.py:186-190 | a conversation is never in two places, nor twice in one |
| `RequeueTheorems.DialogueHolds` | benchmark/hicache/bench_serving.py:99-115 | every request carried the alternating history of the earlier turns of its conversation and its own prompt, with their token count; turns go in order, each at most once, and prompts are those requested |
| `RequeueTheorems.LimitsAsRequested` | benchmark/hicache/bench_serving.py:172-177 | every request asks for the token limit its turn was given, though limits are overwritten by real lengths |
| `RequeueReplies.RequestCarriesReplies` | benchmark/hicache/bench_serving.py:99-185 | over runs: the request for a turn carries the prompts of the data and the texts of the successes before it, alternating, and counts the data's input lengths and the successes' output lengths |
| `RequeueReplies.TakenInOrder` | benchmark/hicache/bench_serving.py:186-190 | conversations taken, then queued, are all conversations followed by those put back, in order |
| `RequeueReplies.ConcurrencyHolds` | benchmark/hicache/bench_serving.py:396-412 | no more requests are open at once than `max_concurrency` |
| `RequeueTheorems.MeasureFalls` | benchmark/hicache/bench_serving.py:263-283 | every step lowers a measure by exactly one |
| `RequeueTheorems.RunsEnd` | benchmark/hicache/bench_serving.py:414-493 | every run ends, after at most three steps a turn and one more |
| `RequeueTheorems.NextStep` | benchmark/hicache/bench_serving.py:263-283 | while a turn is queued or with a task, and the generator has not given up, some other step is possible |
| `RequeueRest.RestIff` | benchmark/hicache/bench_serving.py:263-283 | at rest no task is left, and the generator has taken every turn or given up; and only then |
| `RequeueRest.AfterGivingUp` | benchmark/hicache/bench_serving.py:268-277 | after giving up, the queue holds something if and only if a task that held a conversation then put it back |
| `RequeueRest.RestTakesAllIff` | benchmark/hicache/bench_serving.py:263-283 | at rest the generator has taken `num_actual_requests` turns if and only if no conversation failed before its last turn and none was put back by a task that held it when the generator gave up |
| `RequeueRest.WaitsIdleIff` | benchmark/hicache/bench_serving.py:263-283 | with nothing queued and nothing in flight, the generator still waits for a turn if and only if a conversation failed before its last turn |
| `RequeueRest.NeverWaitsIdle` | benchmark/hicache/bench_serving.py:263-283 | without failures the generator never waits while nothing is queued and nothing in flight |
| `RequeueRest.FailureFreeTakesAll` | benchmark/hicache/bench_serving.py:414-493 | without failures it has taken exactly the sum of the conversation lengths if and only if it did not give up on a conversation put back later; then every turn of every conversation was sent once and in order |
| `RequeueRest.FailureStarves` | benchmark/hicache/bench_serving.py:191-197 | a run in which a first turn fails and the generator waits for a turn that never comes |
| `RequeueRest.GivingUpLosesTurns` | benchmark/hicache/bench_serving.py:270-277 | a run without a failure in which the generator gives up while a turn is in flight, and the next turn is never taken |
| `ConversationQueue.PromptLen` | benchmark/hicache/bench_serving.py:102-106 | the loop sums the tokens of the earlier turns and adds those of the prompt |
| `ConversationQueue.CountTurns` | benchmark/hicache/bench_serving.py:414 | the loop counts all turns of all conversations |
| `ConversationQueue.Benchmark.constructor` | benchmark/hicache/bench_serving.py:421-468 | the filled queue is the initial state, and its record the run of no steps |
| `ConversationQueue.Benchmark.Next` | benchmark/hicache/bench_serving.py:268-277 | the generator takes the head of the queue, or gives up on an empty one |
| `ConversationQueue.Benchmark.Send` | benchmark/hicache/bench_serving.py:99-115 | the prompt joins the messages and all of them are sent |
| `ConversationQueue.Benchmark.Receive` | benchmark/hicache/bench_serving.py:166-197 | the real output length replaces the limit, the reply joins the messages, and the conversation goes to the end of the queue when turns are left |
| `Redirects.CircleNeverEnds` | benchmark/line_retrieval/gen_data.py:66-74 | a line met twice means the redirects never end |
| `Redirects.TerminalOfChain` | benchmark/line_retrieval/gen_data.py:68-76 | the complete chain ends at the line with a value of its own |
| `Redirects.Walk` | benchmark/line_retrieval/gen_data.py:63-74 | the walk ends for every table; it finds the complete chain and its last line if and only if the redirects end |
| `Redirects.ResolveAll` | benchmark/line_retrieval/gen_data.py:57-76 | in place, while values are overwritten: exactly the lines whose redirects never end are set aside, and every other line gets the original value of its terminal line and its complete chain |
| `Redirects.Group` | benchmark/line_retrieval/gen_data.py:78-83 | a group holds exactly the lines with that many hops, in order |
| `LineQueries.MakeQuery` | benchmark/line_retrieval/bench_sglang.py:41-64 | the candidates are the lines of the group that are shown with their chain; the query asks for the one at the given share of them, and there is none if and only if there are no candidates; the first three parts are a quarter each, and the four join to the shown lines |
| `LineQueries.ShownIff` | benchmark/line_retrieval/bench_sglang.py:42-46 | a line qualifies if and only if it and all lines of its chain are shown, itself before the last |
| `LineQueries.Position` | benchmark/line_retrieval/bench_sglang.py:47-49 | the share of the candidates, rounded down, and never past the last candidate |
| `LineQueries.ReadOffFollows` | benchmark/line_retrieval/gen_data.py:49-54 | reading the shown lines follows the redirect chain line by line |
| `LineQueries.QueryIsAnswerable` | benchmark/line_retrieval/bench_sglang.py:41-64 | from the shown lines alone, as many redirects as the line has lead to the label, and the four parts join to the shown lines |
| `UserQueueTheorems.RoundsByRatio` | benchmark/hicache/bench_mix.py:199-207 | a draw gives t rounds if and only if it lies in the t-th range; the ranges are as long as the ratios, the last one longer by one |
| `UserQueueProofs.JoinKeepsFront` | benchmark/hicache/bench_mix.py:259-267 | wherever a user is inserted, all but the last of the queue stay in order |
| `UserQueueProofs.FirstLaterKeepsSorted` | benchmark/hicache/bench_mix.py:262-267 | inserting at the position the loop computes would keep every sorted queue sorted |
| `UserQueueProofs.StepInv` | benchmark/hicache/bench_mix.py:195-276 | every pop and push keeps the invariant of users, queue, counters and log |
| `UserQueueProofs.RunExtends` | benchmark/hicache/bench_mix.py:195-276 | a run goes on with any step its last state allows, and is a run again |
| `UserQueueTheorems.NoUserLost` | benchmark/hicache/bench_mix.py:195-276 | a user is once in the queue, once handed out, or has done all its rounds |
| `UserQueueTheorems.RoundsInOrder` | benchmark/hicache/bench_mix.py:195-276 | each round of a user is handed out once and in order |
| `UserQueueTheorems.UserStatsAddUp` | benchmark/hicache/bench_mix.py:196-225 | `user_stats` adds up to `user_id` |
| `UserQueueTheorems.StatsBalance` | benchmark/hicache/bench_mix.py:231-241 | `input_stats[r][1] - output_stats[r][1]` is the number of unretired users in round r |
| `UserQueueTheorems.TokensAddUp` | benchmark/hicache/bench_mix.py:231-241 | the token counters of a round are the prompt and output tokens of that round over all users |
| `UserQueueTheorems.TokensOfSteps` | benchmark/hicache/bench_mix.py:211-241 | the token counters of a round are the sums of what the steps of that round brought |
| `UserQueueTheorems.NewPrepares` | benchmark/hicache/bench_mix.py:195-227 | a new user starts in round 0 with its number, its first prompt, the rounds whose range its draw lies in, and the drawn number of return tokens, or the mean where that was not positive |
| `UserQueueTheorems.PushPrepares` | benchmark/hicache/bench_mix.py:229-257 | a returned user has the reply and the next candidate added to its prompt, the drawn number of return tokens or the next round's mean, and a start as far off as the drawn interval or its mean; one at its end keeps its prompt |
| `UserQueueTheorems.HandedAsPushed` | benchmark/hicache/bench_mix.py:229-276 | over runs: a user comes out of the queue with exactly what its push prepared |
| `UserQueueTheorems.FrontInOrder` | benchmark/hicache/bench_mix.py:259-267 | in every reachable state all but the last of the queue are in order of start time |
| `UserQueueTheorems.OpenerGoesLast` | benchmark/hicache/bench_mix.py:259-275 | who enters an empty queue stays last for as long as anyone is queued |
| `UserQueueTheorems.PushSortedIff` | benchmark/hicache/bench_mix.py:259-267 | a sorted queue stays sorted if and only if it was empty or the user is not later than its last |
| `UserQueueTheorems.TwoPushesUnsorted` | benchmark/hicache/bench_mix.py:262-267 | a run of two pushes that leaves the queue unsorted |
| `UserQueueTheorems.NeverEarly` | benchmark/hicache/bench_mix.py:252-275 | a user handed out of the queue has waited since its push for longer than its interval, or than the round's mean where the draw was not positive |
| `UserGenerators.PickRounds` | benchmark/hicache/bench_mix.py:199-207 | the loop finds the first cumulative ratio above the draw |
| `UserGenerators.Scan` | benchmark/hicache/bench_mix.py:262-266 | the loop computes the first later position and leaves the index it looked at last |
| `UserGenerators.UserGenerator.constructor` | benchmark/hicache/bench_mix.py:157-193 | the new generator is the initial state, and its record the run of no steps |
| `UserGenerators.UserGenerator.Gen` | benchmark/hicache/bench_mix.py:195-227 | a new user, counted in the statistics |
| `UserGenerators.UserGenerator.Pop` | benchmark/hicache/bench_mix.py:269-276 | the head of the queue if and only if its start time has passed, and else a new user |
| `UserGenerators.UserGenerator.Push` | benchmark/hicache/bench_mix.py:229-267 | the user is retired or put in the queue for its next round, with all counters |
| `TextSplit.JoinSplit` | benchmark/reasoning_benchmark/answer_extraction.py:184 | the pieces of a text join to it again and contain no separator |
| `TextSplit.SplitJoin` | benchmark/reasoning_benchmark/answer_extraction.py:184 | splitting undoes joining, for pieces without the separator |
| `BoxedAnswers.Answer` | benchmark/reasoning_benchmark/answer_extraction.py:185-196 | the scan finds the brace that closes more than was opened, or there is none |
| `BoxedAnswers.ExtractBoxedAnswers` | benchmark/reasoning_benchmark/answer_extraction.py:182-197 | the answers of the pieces after the first, in order |
| `BoxedAnswers.ExtractsPayloads` | benchmark/reasoning_benchmark/answer_extraction.py:182-197 | the balanced payloads of any text with boxes come out in order, with the brace kept where a percent sign follows |
| `BoxedAnswers.OneBox` | benchmark/reasoning_benchmark/answer_extraction.py:182-197 | a text with one box has its payload as the only answer |
| `BoxedAnswers.NoNestedAnswer` | benchmark/reasoning_benchmark/answer_extraction.py:184-195 | no answer of any text contains the start of a box |
| `BoxedAnswers.PayloadsIff` | benchmark/reasoning_benchmark/answer_extraction.py:182-197 | the answers of any text with balanced boxes are the payloads if and only if no box is inside a box and no percent sign follows one |
| `FixFracs.FixFracs` | benchmark/reasoning_benchmark/answer_extraction.py:8-37 | the loop repairs every fraction, or returns the text as it was |
| `FixFracs.FixRepairs` | benchmark/reasoning_benchmark/answer_extraction.py:8-37 | in any text whose arguments are long enough, a bare first argument gets braces, a bare second one too, an argument in braces stays, and nothing else changes |
| `FixFracs.ShortUnchanged` | benchmark/reasoning_benchmark/answer_extraction.py:21-25 | a text with one argument too short is returned as it was |
| `FixFracs.AnyText` | benchmark/reasoning_benchmark/answer_extraction.py:8-37 | every text is of one of these two forms |
| `FixFracs.FixBracesIff` | benchmark/reasoning_benchmark/answer_extraction.py:8-37 | every fraction of the result starts with a brace if and only if no argument was too short |
| `FixFracs.FixIdempotent` | benchmark/reasoning_benchmark/answer_extraction.py:8-37 | repairing twice is repairing once |
| `FixFracs.FixAlike` | benchmark/reasoning_benchmark/answer_extraction.py:8-37 | only braces are added, as many closing as opening ones |
| `WheelIndexProofs.DedupAppend` | scripts/update_nightly_whl_index.py:108-121 | new links keep their order and come first; old ones follow where their name is new |
| `WheelIndexProofs.MergeIdempotent` | scripts/update_nightly_whl_index.py:108-121 | merging the same new links again changes nothing |
| `WheelIndexProofs.NameOfLinkIff` | scripts/update_nightly_whl_index.py:95-118 | the name read from a link is its file name if and only if that is a wheel's name without markup characters |
| `WheelIndexProofs.LinkText` | scripts/update_nightly_whl_index.py:95-97 | the text of a link, written out |
| `WheelIndexProofs.WhlIsRead` | scripts/update_nightly_whl_index.py:95-118 | the name of a `.whl` file without markup characters is read from its link |
| `WheelIndexProofs.OnlyWhlIsRead` | scripts/update_nightly_whl_index.py:116-118 | no other name is read from any link |
| `WheelIndexProofs.WheelsOnPage` | scripts/update_nightly_whl_index.py:79-150 | every `.whl` file of a run is on the updated page, under its name and with the run's link |
| `WheelIndexProofs.OnlyWhlOnPage` | scripts/update_nightly_whl_index.py:116-118 | no page lists anything under a name that does not end in `.whl` |
| `WheelIndexProofs.NamelessLink` | scripts/update_nightly_whl_index.py:116-117 | a file called `.whl` and nothing more has no name to be found by, and is dropped |
| `WheelIndexProofs.ReadIff` | scripts/update_nightly_whl_index.py:79-87 | of the old page, exactly the lines that start with `<a href=` are read |
| `WheelIndexProofs.ReadBack` | scripts/update_nightly_whl_index.py:79-87 | the links read from a page are the links written to it |
| `WheelIndexProofs.RerunChangesNothing` | scripts/update_nightly_whl_index.py:79-150 | running again with the same wheels and tag leaves the page as it is, from any page |
| `WheelIndexProofs.LatestLinkWins` | scripts/update_nightly_whl_index.py:79-150 | after any runs from any page, every file name has the link of the latest run that shipped it, and none is lost |
| `WheelIndexProofs.ListedOnce` | scripts/update_nightly_whl_index.py:111-121 | every file name is listed once |
| `WheelIndexProofs.ShippedLink` | scripts/update_nightly_whl_index.py:89-99 | a run's wheel is found under its name with the run's own link |
| `WheelIndexUpdate.ReadLinks` | scripts/update_nightly_whl_index.py:79-87 | the lines of the old page that start like a link |
| `WheelIndexUpdate.RemoveDuplicates` | scripts/update_nightly_whl_index.py:111-121 | the first link of every file name, in order |
| `WheelIndexUpdate.UpdateWheelIndex` | scripts/update_nightly_whl_index.py:79-150 | the page written; an error if and only if there are no wheels |

## Left out

- HTTP requests, streaming, timing, throughput and percentile metrics of all drivers: a request is a success with some output or a failure.
- Tokenizers, sampling and payload construction: their results are arguments.
- The heartbeat and the pause before a release in `bench_multiturn.py`: they change no state of the protocol.
- The `ValueError` branch of the response handler: nothing in the modelled code raises it.
- Fairness: progress is the existence of a productive step and a bound on their number, not a schedule.
- `bench_serving.py`: the warm-up request, the shared-prefix mode that flattens conversations, and empty conversations, which the data loader never makes and at which the code would raise.
- `convert_otel_2_perfetto.py`: events, links, metadata names and the JSON fields; span times are integers of nanoseconds, without the division to microseconds.
- `convert_otel_2_perfetto.py:225` reads a child list that gateway spans do not have; the model gives them none below them.
- `gen_data.py`: the random draw of lines and redirects, and the few-shot examples; `bench_sglang.py`: the double loop over positions, the prompt text and the accuracy.
- `bench_mix.py`: the worker threads and the run's duration; the distributions of the draws; how a user's number is printed in its prompt.
- `answer_extraction.py`: all other functions, which rest on regular expressions.
- `update_nightly_whl_index.py`: digests, directories, newline translation of text files, and the root index of packages; tags, names, digests and the CUDA version are without line breaks.
- `scripts/update_pr_whl_index.py` merges in the same way.
- All GPU kernels and their benchmarks, and the storage benchmarks.
- ShippedLink: is for runs whose file names can all be read back from their links; NameOfLinkIff says exactly which those are, for tags and digests that close no tag.
