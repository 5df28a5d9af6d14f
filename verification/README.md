# GloScope: verified models

GloScope is a security-audit tool built on a fork of an agent CLI. This project models its
stateful cores in Dafny and proves what holds of them over every input and every run:

- **The analytics reducer** (`Reducer`, `ToolCorrelation`, `ReducerMoves`, `ToolRuns`,
  `ContextRuns`, `TurnRuns`, `ReviewRuns`, `RequestRuns`, `CellOrder`, `ReducerObject`). Facts are folded into nine tables
  and events come out. The model is a step function with the code's branches; a run is any
  sequence of facts and flushes. Hash-map iteration order is a parameter of the step that uses
  it, so every theorem holds for every order. The class `AnalyticsReducer` updates its tables
  in place, with the code's loops, and each method is proved equal to its step function.
- **The analytics queue, batching and dedupe** (`AnalyticsQueue`, `EventBatches`). A bounded
  queue with drop-on-full, a worker, and a flush barrier; order-preserving batching; a
  dedupe set that is cleared when full.
- **The in-process event forwarder** (`EventForwarder`). A worker feeding a bounded channel with
  a lossless and a best-effort tier. The consumer is an adversary that may take events or leave
  between any two channel operations of the worker.
- **The remote JSON-RPC worker** (`RemoteWorker`). Handshake, select loop, pending-request
  table and exit drain, with every interleaving of commands, frames and write failures. It
  follows the request/response rules of sections 5 and 5.1 of the JSON-RPC 2.0 specification.
- **The unified-diff scanner and the path algebra** (`DiffScan`, `ServerPath`).
- **The audit funnel** (`CandidateDedupe`, `Funnel`, `FunnelMetrics`, `ReportCodec`, `FunnelReplay`). Windowed
  dedupe of candidates, the triage and verification loop, scoring, report sections, and the
  JSON form of a report.

How the proofs are built: each transition system has a state datatype, labels, a step function
and a whole-run lemma by induction on the run. For the reducer, `ReducerMoves` first shows that
a step makes at most one move in the tool correlation and writes at most one turn, so that
later modules reason about moves and writes and never again about the full set of facts.

Some properties are false of the code as stated informally; each comes with its exact condition:

- A thread's connection is always known, but a *turn* may store a connection that never
  initialized. The step that brings the last part of a turn reports it exactly when the
  connection then stored on it, if any, is known (`TurnRuns.ReportedOnTheLastPart`); a run that
  leaves a finished turn unreported is `TurnRuns.DanglingTurnIsNotReported`.
- A cell's origin can depend on arrival order: exactly when a response claims a call already
  tied to another response of the turn (`ToolCorrelation.CellAndResponseCommuteIff`). Two legal
  runs that differ only in this order and leave different cells are in
  `CellOrder.ArrivalOrderMatters`.
- Joining a segment onto a path fails to append a component exactly for Windows-style paths
  made only of separators (`ServerPath.JoinAppendsIff`), such as `//`
  (`ServerPath.BareRootExample`).
- Findings and truncated candidates add up to the candidates exactly when the cap is not
  negative; a negative cap slices from the end (`Funnel.ConservedIff`). What a cap of minus one
  gives is in `Funnel.NegativeCapExample`.
- The report sections partition the findings exactly when every verdict is one of the three
  documented ones (`Funnel.SectionsPartitionIff`). The verification stage refuses any other
  verdict, so this concerns findings from other sources, such as an edited report that is read
  back (`ReportCodec.UnknownVerdictExample`).

Inputs that come from outside (clocks, the network, write outcomes, LLM stages, whitespace and
character classes) are parameters. Identifiers and payloads that are only carried or compared
are strings.

## Model

| member | source | states |
|---|---|---|
| `ToolRuns.ToolConservation` | codex-rs/analytics/src/reducer.rs:783-886 | over every run and for every turn, the tool events handed to the correlation are, with multiplicity, those waiting in that turn's queue plus those emitted: none lost, none doubled, through immediate emission, eviction, release and all three flush paths |
| `ToolRuns.RunSound` | codex-rs/analytics/src/reducer.rs:642-680 | in every reachable state all queues, call maps, child maps and cell maps hold at most 256 entries, queues hold only their own turn's events, nothing waiting is marked, and every response id held was announced for that thread |
| `ToolRuns.SubsequentFollowsOrigin` | codex-rs/analytics/src/reducer.rs:783-829 | every emitted event naming a subsequent response was released by that response in its own turn, and its origin is a different response completed strictly earlier in the same thread |
| `ToolRuns.AnnouncedIff` | codex-rs/analytics/src/reducer.rs:694-707 | a response counts as announced exactly if some earlier accepted completion of that thread carried it |
| `ToolRuns.CellsOutliveTurns` | codex-rs/analytics/src/reducer.rs:862-880 | over every run a cell disappears only when its thread closes or when a turn in which it was closed completes |
| `ToolRuns.ClosedCellsWereClosed` | codex-rs/analytics/src/reducer.rs:681-693 | a cell recorded as closed in a turn was closed by an accepted close of that turn |
| `ToolRuns.ApplyBalanced` | codex-rs/analytics/src/reducer.rs:831-886 | each single operation keeps, per turn, waiting plus handed over equal to waiting plus emitted |
| `ToolCorrelation.StablePartitionIff` | codex-rs/analytics/src/reducer.rs:813-828 | the release step's two outputs are the one order-preserving split of the queue into events whose known origin differs from the new response and the rest |
| `ToolCorrelation.CompleteResponseOrigins` | codex-rs/analytics/src/reducer.rs:783-829 | a completed response marks exactly what it releases with itself, and their origins were announced before it |
| `ToolCorrelation.CompleteResponseBalanced` | codex-rs/analytics/src/reducer.rs:783-829 | releasing conserves events for every turn |
| `ToolCorrelation.RecordBalanced` | codex-rs/analytics/src/reducer.rs:831-860 | recording conserves events for every turn, including eviction of the oldest at 256 |
| `ToolCorrelation.CloseThreadBalanced` | codex-rs/analytics/src/reducer.rs:1668-1678 | closing a thread emits exactly its queues, in whatever order they are visited |
| `ToolCorrelation.FlushAllBalanced` | codex-rs/analytics/src/reducer.rs:882-886 | a global flush emits exactly what waited and leaves every queue empty |
| `ToolCorrelation.CellAndResponseCommuteIff` | codex-rs/analytics/src/reducer.rs:791-811 | starting a cell and completing the response that names its call commute on the cell map, also at the caps, if and only if the response does not reclaim a call already tied to another response (or the cell is refused) |
| `CellOrder.ArrivalOrderMatters` | codex-rs/analytics/src/reducer.rs:791-811 | after a legal run that ties a call to one response, a second response claiming it and the start of its cell can legally arrive in either order and leave different cells |
| `ToolCorrelation.EnrichSound` | codex-rs/analytics/src/reducer.rs:2145-2173 | an enriched event's origin, from its call or its cell, is a response announced for its thread |
| `ReducerMoves.StepTools` | codex-rs/analytics/src/reducer.rs:458-611 | whatever the fact, what a step does to the correlation and the tool events it emits are those of at most one operation |
| `ReducerMoves.StepTurns` | codex-rs/analytics/src/reducer.rs:458-611 | whatever the fact, a step writes at most one turn, and emits a turn event exactly when it then reports that turn and removes it |
| `TurnRuns.AtMostOnePerPart` | codex-rs/analytics/src/reducer.rs:1986-2044 | over every run a turn has at most as many turn events as it has configuration facts, profile facts and completions |
| `TurnRuns.ReportedIffFound` | codex-rs/analytics/src/reducer.rs:1986-2044 | for a thread with full context and a turn whose facts name it, with no part supplied twice, over any interleaving: the turn is reported at most once, and exactly if some step, once all three parts are in, tries to report it while the connection stored on it, if any, is known |
| `TurnRuns.ReportedOnTheLastPart` | codex-rs/analytics/src/reducer.rs:1998-2017 | the step bringing the last of the three parts, in any order, reports the turn if and only if the connection then stored on it, if any, is known; in that case the turn is reported neither before nor again |
| `TurnRuns.DanglingTurnIsNotReported` | codex-rs/analytics/src/reducer.rs:2007-2017 | a legal run in which a turn of a thread with full context gets all its parts and is never reported, because it was started over a connection that never initialized |
| `TurnRuns.RunFaithful` | codex-rs/analytics/src/reducer.rs:1298-1312 | in every reachable state a turn's interrupt time is the minimum over interrupts accepted since it was last reported, and each tool count is the number of calls finished in that category |
| `TurnRuns.TurnEventsFaithful` | codex-rs/analytics/src/reducer.rs:430-455 | every emitted turn event reports exactly those interrupts and counts, and its total is the sum of its categories |
| `ContextRuns.NoMissingConnection` | codex-rs/analytics/src/reducer.rs:2046-2083 | in every reachable state each thread's stored connection is known, so the lookup never fails for an unknown connection |
| `ContextRuns.ContextNeverLost` | codex-rs/analytics/src/reducer.rs:913-942 | a thread whose context is complete, directly or inherited, keeps a complete context ever after |
| `ContextRuns.SubAgentInheritsContext` | codex-rs/analytics/src/reducer.rs:913-942 | after any run, a sub-agent of a thread with full context has full context, and a new one speaks over its parent's connection |
| `ReviewRuns.SummaryIsHistory` | codex-rs/analytics/src/reducer.rs:1919-1984 | in every reachable state an item's review summary counts exactly the reviews resolved on that item since it was last cleared, total = guardian + user, outcome = the latest |
| `ReviewRuns.ReportedReviews` | codex-rs/analytics/src/reducer.rs:1592-1661 | over every run, each tool event emitted stems from an item completion and reports exactly the reviews resolved on its item since they were last cleared, or from a code-mode call and reports none |
| `ReviewRuns.StepSummary` | codex-rs/analytics/src/reducer.rs:2175-2186 | a step changes an item's summary only by resolving a command, file or MCP review of that very item, or by consuming it |
| `RequestRuns.RequestsAccounted` | codex-rs/analytics/src/reducer.rs:1276-1312 | over every run and for every request id: times asked = responses that found it open + times overwritten while open + 1 if still open |
| `RequestRuns.UnaskedResponsesErased` | codex-rs/analytics/src/reducer.rs:1518-1529 | erasing from any run the responses and errors to requests that are not open leaves a legal run with the same state and the same events |
| `RequestRuns.SteersAnswerSteers` | codex-rs/analytics/src/reducer.rs:1853-1917 | over every run, each steer event is the answer to an earlier steer request that stayed open until then, with its thread, turn, images and time, accepted exactly on success |
| `RequestRuns.SteersAnswerDistinctRequests` | codex-rs/analytics/src/reducer.rs:1853-1876 | no request is answered by two steer events |
| `ReducerObject.EnrichEvent` | codex-rs/analytics/src/reducer.rs:2145-2173 | the field-by-field edit gives the enriched event |
| `ReducerObject.RecordCalls` | codex-rs/analytics/src/reducer.rs:793-801 | the loop binds each call to the response, up to the cap |
| `ReducerObject.FillOrigins` | codex-rs/analytics/src/reducer.rs:802-811 | visiting the cells in any order fills exactly the origins now known |
| `ReducerObject.SplitQueue` | codex-rs/analytics/src/reducer.rs:813-828 | one pass over the queue gives the stable partition, leaving events marked |
| `ReducerObject.AnalyticsReducer.RecordToolEvent` | codex-rs/analytics/src/reducer.rs:831-860 | the new tables and output are those of recording an event |
| `ReducerObject.AnalyticsReducer.IngestSamplingResponse` | codex-rs/analytics/src/reducer.rs:783-829 | the new tables and output are those of completing a response |
| `ReducerObject.AnalyticsReducer.FlushPendingToolEvents` | codex-rs/analytics/src/reducer.rs:862-880 | the new tables and output are those of completing a turn |
| `ReducerObject.AnalyticsReducer.DropThread` | codex-rs/analytics/src/reducer.rs:1668-1678 | the thread's queues go out in some order that visits each once, and its entries are gone |
| `ReducerObject.AnalyticsReducer.Flush` | codex-rs/analytics/src/reducer.rs:882-886 | a legal flush step: every queue emitted once and emptied |
| `ReducerObject.AnalyticsReducer.MaybeEmitTurnEvent` | codex-rs/analytics/src/reducer.rs:1986-2044 | reports and forgets the turn exactly when complete and in context |
| `ReducerObject.AnalyticsReducer.Answer` | codex-rs/analytics/src/reducer.rs:1276-1312 | request matching: the pending request is taken out whatever the response, and only a fitting one has an effect |
| `ReducerObject.AnalyticsReducer.EmitReviewEvent` | codex-rs/analytics/src/reducer.rs:1919-1984 | records the review on its item and reports it if the thread is known |
| `ReducerObject.AnalyticsReducer.IngestItem` | codex-rs/analytics/src/reducer.rs:1592-1661 | counting, matching with the start, reporting and clearing of an item, in the code's order |
| `ReducerObject.AnalyticsReducer.IngestCodeModeCall` | codex-rs/analytics/src/reducer.rs:613-781 | code-mode facts of unknown threads have no effect; the others make their move |
| `ReducerObject.AnalyticsReducer.IngestFact` | codex-rs/analytics/src/reducer.rs:458-611 | the object's new state and output are one legal step of the model |
| `AnalyticsQueue.RefinesFold` | codex-rs/analytics/src/client.rs:136-172 | every interleaving of producers and worker is the sequential fold of the reducer over the accepted messages in order, with each step's events handed over as they are and at most 256 messages waiting |
| `AnalyticsQueue.DroppedFactsHaveNoEffect` | codex-rs/analytics/src/client.rs:163-172 | removing the facts dropped on a full queue from a run leaves the same state and the same accepted messages |
| `AnalyticsQueue.FlushIsABarrier` | codex-rs/analytics/src/client.rs:233-254 | at an acknowledgement everything accepted before the flush has been folded in, no tool event waits anywhere, and all of them have been handed to the sender |
| `AnalyticsQueue.HandedOver` | codex-rs/analytics/src/client.rs:136-160 | the batches handed to the sender, joined, are the events of the reducer's run |
| `AnalyticsQueue.AnalyticsEventsQueue.TrySend` | codex-rs/analytics/src/client.rs:163-172 | an offer extends the run; a full queue drops it |
| `AnalyticsQueue.AnalyticsEventsQueue.WorkOff` | codex-rs/analytics/src/client.rs:140-155 | one turn of the worker loop is one legal step of the model |
| `AnalyticsQueue.AnalyticsEventsQueue.Flush` | codex-rs/analytics/src/client.rs:233-254 | with producers interfering and limited patience: if the flush gets through, its ticket is the last acknowledged and no tool event waits; with the patience of a full queue it always does |
| `EventBatches.TrackEventRequestBatches` | codex-rs/analytics/src/client.rs:660-681 | batches concatenate back to the input, none is empty, each isolated event is alone, and their number is the number needed |
| `EventBatches.FewestBatches` | codex-rs/analytics/src/client.rs:660-681 | no order-preserving partition with isolated events alone has fewer batches |
| `EventBatches.SendTrackEvents` | codex-rs/analytics/src/client.rs:634-658 | what is posted is exactly what the credentials permit, in order, in the fewest requests |
| `EventBatches.DuplicatesAreRare` | codex-rs/analytics/src/client.rs:174-213 | a key is sent at least once and at most once per 4096 offers beyond the first |
| `EventBatches.EmittedKeys.ShouldEnqueue` | codex-rs/analytics/src/client.rs:174-213 | the in-place set answers as the history of offers says |
| `EventForwarder.DeliveredIndex` | codex-rs/app-server-client/src/lib.rs:174-240 | for every capacity and consumer schedule, an accepted event's input index is the number of events accepted before it plus the lag counts sent before it |
| `EventForwarder.Conservation` | codex-rs/app-server-client/src/lib.rs:174-240 | at every moment inputs = accepted + lag counts sent + lag count held + drops a saturated counter absorbed, up to the one event in flight |
| `EventForwarder.LosslessExactly` | codex-rs/app-server-client/src/lib.rs:117-153 | the lossless events accepted are exactly the lossless inputs, in order |
| `EventForwarder.RequestsExactlyOnce` | codex-rs/app-server-client/src/lib.rs:523-572 | every server request is delivered or rejected, never both or twice; token refreshes are always rejected |
| `EventForwarder.RefreshesDoNotInterfere` | codex-rs/app-server-client/src/lib.rs:526-544 | erasing token refreshes from a run leaves a legal run with the same channel, lag count, fates and rejections |
| `EventForwarder.ShutdownIsBounded` | codex-rs/app-server-client/src/lib.rs:736-768 | once the receiver is dropped and shutdown queued, the worker is never blocked and exits within a bounded number of its own moves, each of which lowers the bound |
| `EventForwarder.RunKeeps` | codex-rs/app-server-client/src/lib.rs:174-240 | the forwarder's invariant holds along every legal run |
| `EventForwarder.InProcessWorker.Forward` | codex-rs/app-server-client/src/lib.rs:174-240 | the code's effect stays within the reachable states; the event's fate is settled, a lossless event is never dropped, and cut-off means the stream is disabled |
| `EventForwarder.InProcessWorker.OnEvent` | codex-rs/app-server-client/src/lib.rs:523-572 | one turn of the event branch is a run of the model: a token refresh is rejected and goes no further, any other event becomes an input with a settled fate, and the stream is disabled exactly if it was cut off |
| `EventForwarder.ReachableGuaranteed` | codex-rs/app-server-client/src/lib.rs:470-572 | every state a legal run reaches has all four guarantees: locatable events, conservation, lossless delivery, requests answered once |
| `EventForwarder.RunWorker` | codex-rs/app-server-client/src/lib.rs:462-572 | the worker's loop from start, over any sequence of ready branches and any consumer, ends in such a state |
| `EventForwarder.InProcessWorker.OnCommand` | codex-rs/app-server-client/src/lib.rs:470-521 | one turn of the command branch is a step of the model; the worker exits exactly on shutdown or hang-up |
| `RemoteWorker.EveryRequestAnsweredOnce` | codex-rs/app-server-client/src/remote.rs:215-260 | each request taken is at every moment waiting or answered exactly once, and once the exit drain is done all are answered |
| `RemoteWorker.DuplicateIsHarmless` | codex-rs/app-server-client/src/remote.rs:227-235 | a duplicate id is refused, reaches neither the wire nor the table |
| `RemoteWorker.ReplyBetweenRequests` | codex-rs/app-server-client/src/remote.rs:215-260 | between two wire requests with one id lies a received reply for it |
| `RemoteWorker.RepliesMatchRequests` | codex-rs/app-server-client/src/remote.rs:319-332 | every answer from the wire is the first reply with the request's id after the request was written |
| `RemoteWorker.RunMirrors` | codex-rs/app-server-client/src/remote.rs:319-332 | the table holds exactly the ids whose latest wire request has no reply yet |
| `RemoteWorker.StreamIsTheWire` | codex-rs/app-server-client/src/remote.rs:333-462 | what the consumer gets is, in order, the decodable notifications and known requests on the wire from the first handshake message on; once the worker exits one disconnect ends it, if and only if the exit was not a stop |
| `RemoteWorker.DisconnectedOnlyLast` | codex-rs/app-server-client/src/remote.rs:595-600 | a disconnect is returned at most once, only last, and never after a stop |
| `RemoteWorker.UnknownRequestsRejected` | codex-rs/app-server-client/src/remote.rs:345-393 | every unknown request is answered once with -32601, in order |
| `RemoteWorker.RemoteClient.InitializeConnection` | codex-rs/app-server-client/src/remote.rs:798-948 | the handshake loop is a legal run over the frames it reads |
| `RemoteWorker.RemoteClient.OnRequest` | codex-rs/app-server-client/src/remote.rs:215-260 | taking a request command is one step of the model |
| `RemoteWorker.RemoteClient.OnIncoming` | codex-rs/app-server-client/src/remote.rs:319-462 | reading a frame is one step of the model |
| `RemoteWorker.RemoteClient.DrainPending` | codex-rs/app-server-client/src/remote.rs:466-474 | the exit loop, in any order, is a legal run that empties the table |
| `RemoteWorker.RemoteClient.NextEvent` | codex-rs/app-server-client/src/remote.rs:595-600 | handshake leftovers come first, then the channel; with both empty the call waits while the worker lives and ends the stream once it has ended |
| `RemoteWorker.RunClient` | codex-rs/app-server-client/src/remote.rs:195-485 | the client from its constructor, over any frames, commands and consumer: it ends in a state of a legal run with all guarantees, and once the worker has left its loop every request taken has been answered exactly once |
| `RemoteWorker.RemoteClient.Perform` | codex-rs/app-server-client/src/remote.rs:215-474 | every command, frame and consumer action that is possible is one step of the model, and any other changes nothing |
| `DiffScan.ScanUnifiedDiff` | codex-rs/analytics/src/accepted_lines.rs:30-83 | the scanning loop computes the scan of the text |
| `DiffScan.ScanRecoversDiff` | codex-rs/analytics/src/accepted_lines.rs:30-83 | scanning a printed structured diff gives exactly its added and deleted lines and ordered fingerprints with the right paths, also when content looks like a header |
| `DiffScan.ScanConcat` | codex-rs/analytics/src/accepted_lines.rs:30-83 | scanning a concatenation of headed diffs combines the separate scans |
| `DiffScan.PathRecoveredIff` | codex-rs/analytics/src/accepted_lines.rs:143-153 | a printed path is recovered if and only if it does not end in white space |
| `DiffScan.NormalizeIsProjection` | codex-rs/analytics/src/accepted_lines.rs:155-169 | normalizing keeps the words of a line, so normalizing twice is normalizing once |
| `DiffScan.CarriageReturnsDoNotMatter` | codex-rs/analytics/src/accepted_lines.rs:30-83 | a trailing carriage return never changes what a line contributes |
| `DiffScan.CountsAreTextual` | codex-rs/analytics/src/reducer.rs:2992-3000 | the counts a turn reports do not depend on how characters are classified |
| `ServerPath.JoinAppendsIff` | codex-rs/app-server-client/src/path.rs:21-58 | joining a segment appends exactly that component, if and only if the path is not a Windows-style path made only of separators |
| `ServerPath.JoinAllComponents` | codex-rs/app-server-client/src/path.rs:21-41 | joining segments one after another appends them all in order |
| `ServerPath.BareRootExample` | codex-rs/app-server-client/src/path.rs:50-58 | a concrete path for which it fails |
| `CandidateDedupe.DedupeLoop` | legacy-python/gloscope/semgrep_runner.py:159-171 | the sort and loop compute the greedy dedupe |
| `CandidateDedupe.DedupeSound` | legacy-python/gloscope/semgrep_runner.py:162-170 | kept hits of a known category are more than 3 lines apart, every dropped hit is near a kept one, all unknown ones stay |
| `CandidateDedupe.DedupeIsMaximum` | legacy-python/gloscope/semgrep_runner.py:162-170 | per path and category no set of hits pairwise more than 3 lines apart is larger |
| `CandidateDedupe.DedupeByLastKept` | legacy-python/gloscope/semgrep_runner.py:162-170 | comparing with only the last kept hit of the path and category gives the same result |
| `CandidateDedupe.DedupeIdempotent` | legacy-python/gloscope/semgrep_runner.py:159-171 | deduping twice is deduping once |
| `CandidateDedupe.DedupeIgnoresInputOrder` | legacy-python/gloscope/semgrep_runner.py:159-171 | the kept lines do not depend on the order of the input |
| `CandidateDedupe.StableSortCorrect` | legacy-python/gloscope/semgrep_runner.py:160 | the sort is an ordered permutation that keeps ties in input order |
| `Funnel.RunFunnel` | legacy-python/gloscope/pipeline.py:52-108 | for any stages, one finding per survivor in order, the number truncated, the time spent per stage, and findings + truncated = candidates if and only if the cap is not negative |
| `Funnel.ConservedIff` | legacy-python/gloscope/pipeline.py:59-66 | survivors and truncated candidates add up to the candidates if and only if the cap is not negative |
| `Funnel.NegativeCapExample` | legacy-python/gloscope/pipeline.py:64-66 | with a cap of minus one the findings and truncated candidates add up to twice the candidates, or to one for an empty scan |
| `Funnel.FindingOf` | legacy-python/gloscope/pipeline.py:72-98 | a survivor is triaged unless skipped and verified exactly when kept and not skipped; a stage's result is taken as it is, a failed triage keeps the candidate, and a failed verification is inconclusive with its error recorded |
| `Funnel.Stats` | legacy-python/gloscope/models.py:206-231 | each statistic is the number, or token sum, of the findings it is about |
| `Funnel.LayersAddUp` | legacy-python/gloscope/pipeline.py:72-98 | triage keeps or drops every finding of a run, and verification judges every one not dropped |
| `Funnel.SectionsPartitionIff` | legacy-python/gloscope/report.py:69-79 | the five report sections hold every finding exactly once, if and only if every verdict is a known one |
| `ReportCodec.UnknownVerdictExample` | legacy-python/gloscope/report.py:69-79 | a report with an unknown verdict is read back as written, and its finding is in no section |
| `FunnelMetrics.Evaluate` | legacy-python/gloscope/metrics.py:76-98 | three rows with every column right, tp + fn = ground-truth size, recall between 0 and 1, and on funnel reports neither true nor false positives rise from stage to stage |
| `FunnelReplay.ScanAndReplay` | legacy-python/gloscope/pipeline.py:52-108 | scan, evaluate, write, read back, evaluate again: the report read back is the one written, all rows agree in every column, and the stage counts never rise |
| `FunnelMetrics.StagesNeverRise` | legacy-python/gloscope/metrics.py:76-98 | the same for every registry, report and ground truth |
| `FunnelMetrics.FewerHitsScoreLess` | legacy-python/gloscope/metrics.py:69-73 | dropping findings can lose matches and false positives but gain neither |
| `ReportCodec.ReportRoundTrip` | legacy-python/gloscope/report.py:197-240 | reading back a written report gives the same report |
| `ReportCodec.EncodingIsInjective` | legacy-python/gloscope/report.py:118-143 | different reports are written differently |
| `ReportCodec.DecodeFindings` | legacy-python/gloscope/report.py:200-231 | the reading loop returns the findings in order, or the first failure |

## Left out

- Delivery over HTTP, WebSocket, TLS and sockets, with their timeouts and retries: only success and failure are modelled, as choices.
- Payload structs, enum-to-string tables and serde shapes of the analytics events and facts: carried as opaque strings.
- Skill, app, plugin, hook and import facts are one pass-through case, compaction, goal and guardian-review reports another: the reducer emits one event for each and keeps nothing.
- Token and latency fields of events (durations, terminal status, failure kind) are part of an item's opaque detail; the review trigger and subject name are dropped.
- The mapping of approval decisions to a status and resolution, and the filter on which notifications are recorded at all, are taken as given by the fact.
- Counters of the reducer are unbounded: overflow of 64-bit counts is not modelled. The forwarder's saturating lag counter is.
- The fingerprint hash is an uninterpreted pair of path and text, and the repository hash is not modelled.
- AnalyticsQueue.AnalyticsEventsQueue.Flush: its timeout is counted in turns of the worker, not in seconds.
- ReportCodec.ReportRoundTrip: works on JSON values, not on text; of the statistics object only the three durations, which are all that is read back, are written; object keys are names rather than strings.
- ReportCodec.DecodeFindings: a value of the wrong JSON type is an error here, where the program would carry it along unchecked.
- The markdown and SARIF renderers, the call graph, the MCP server, dynamic validation, the triage and verification prompts, the CLI and the desktop app.
- The daemon, the agent identity and the agent graph store.
