# Verified model of the agent loop and its neighbours

This project models the most stateful parts of the repository in Dafny and proves what they promise.

* **The agent loop** (`LoopProtocol`, `AgentLoop`, `LoopTheorems`, `AgentState`, `AgentLifecycle`). The loop is an
  imperative class that follows the source method by method. Streams, hooks, tools and listeners may answer, fail or
  throw in any way; the abort signal may flip at every await and never goes back; parallel tools are interleaved
  steps. The loop keeps a ghost record of everything an observer sees and of everything it learns: what streams,
  tools and hooks answered, and what threw. `LoopProtocol` says which records are legal, the methods prove that only
  legal ones are produced, unless the record shows that a stream or a listener broke its contract, and `LoopTheorems`
  proves what legality means over whole runs.
* **Streams that must not care about chunk boundaries** (`Display`, `Framing`, `Kernel`, `Proxy`). Each parser is
  compared with a function of the whole input.
* **The fullscreen viewport** (`Viewport`, `Painter`). Painting is proved against a model of the terminal: cursor
  position (CUP), erase in display (ED) and erase in line (EL), as in sections 8.3.21, 8.3.39 and 8.3.41 of ECMA-48.
* **The update-restart coordinator** (`Coordinator`, `Restore`). Every remote call may fail; safety is a property of
  the log of effects and answers, and it holds on every exit path. A replacement is never the predecessor, wherever
  that was known (`Coordinator.ReplacementIsNotThePredecessor`).
* **The benchmark controller and its report** (`Controller`, `Schema`).
* **Catalog import** (`CatalogMerge`, `CatalogImport`, `CatalogShipping`, `CatalogMeaning`) and the **fuzzy matcher**
  (`Fuzzy`).

Helper functions the source takes from elsewhere (JSON parsing, character widths, URL rules, case folding, locale
order) are parameters about which nothing is assumed, except that a sliced line is no wider than asked for, and that the
order of records in a group is a total one where `CatalogMeaning.EntryOfGroup` speaks of the first of them.

## What the proofs brought to light

* `side_complete` and `trial_errors` differ on a sample whose error is the empty string: it has no value, so the side
  is not complete, but it reports nothing. `Schema.DefinitionsAgree` gives the exact condition;
  `Schema.SilencedSidesDisagree` shows that any complete side with one such sample put in separates the two, and
  `Schema.SilentFailureDisagrees` names one for every configuration.
* In the proxy a delta after the end of a tool call is appended to the word "undefined": `Proxy.LateDeltaSpoils` is a
  failing input, and `Proxy.ArgumentsExactly` says exactly when the arguments still are the parse of all deltas.
* Every entry that the importer demotes to the user's own OAuth app is refused by the shipping rules
  (`CatalogShipping.DemotedNeverShips`), as the file's header wants; the comment on the demotion itself (lines 905-915)
  still offers it as an alternative to exclusion.
* A server-sent-events endpoint can ship as one-click when an override marks it ready and the audit evidence holds;
  `CatalogShipping.Earned` therefore admits that case.

## Model

| member | source | states |
|---|---|---|
| LoopTheorems.InvHolds | packages/agent/src/agent-loop.ts:304-449 | Every state reached by a legal trace is consistent: tool results are a prefix of the started calls, which are a prefix of the requested ones; every turn but the last was answered and did not fail; a run that closed unaborted owes no message |
| LoopTheorems.ProviderSeesAnsweredCalls | packages/agent/src/agent-loop.ts:322-411 | At every provider call the context is the starting context plus everything listeners saw end, and every response of an earlier turn is followed directly by exactly one result per tool call, in source order, in both execution modes |
| LoopTheorems.NothingAfterACutTurn | packages/agent/src/agent-loop.ts:364-368 | After a turn that failed, or whose sequential batch was cut short by an abort, no turn starts and no provider is called again |
| LoopTheorems.OneCallPerTurn | packages/agent/src/agent-loop.ts:341-470 | A turn holds at most one provider call, and exactly one as soon as it has a response that is not an aborted one |
| LoopTheorems.ResponseFollowsOneCall | packages/agent/src/agent-loop.ts:451-473 | When a turn ends with a response that was not aborted, exactly one provider call was made in that turn, with everything injected already said and the response not yet begun |
| LoopTheorems.SteeringBeforeTheFirstCall | packages/agent/src/agent-loop.ts:314-341 | The first turn's provider call follows a steering poll, unless the run was aborted before it |
| LoopTheorems.ResponseIsTheResult | packages/agent/src/agent-loop.ts:501-583 | In every run the response that closes a turn is the value the stream's result settled with in that turn; only in an aborted run may it be the terminal event's message, if the result threw an abort error, or else the latest partial marked aborted |
| LoopTheorems.SettledResultIsTheResponse | packages/agent/src/agent-loop.ts:544-576 | If a stream's result settled with a message, that message and no other closes the turn, whatever came between |
| LoopTheorems.ListenersSeeThePartials | packages/agent/src/agent-loop.ts:514-542 | Whenever more is learnt of a stream, and when its response ends, listeners have been shown each of its partials so far, once and in order |
| LoopTheorems.CallEndsAsObserved | packages/agent/src/agent-loop.ts:758-943 | How a call ends, its output and error mark, is decided by what was learnt of it since its batch was dispatched: arguments, hooks, the tool's outcome, its rejected updates, aborts |
| LoopTheorems.ToolOutcomeIsReported | packages/agent/src/agent-loop.ts:827-867 | In a run not aborted a call whose tool resolved, with no update rejected, ends with exactly that output and no error, and one whose tool threw with that message as an error; merged field by field with the answer of the hook behind it, if there is one |
| LoopTheorems.RejectedUpdateIsReported | packages/agent/src/agent-loop.ts:850-861 | In a run not aborted the first update that a listener rejected makes an error with its message of a call whose tool resolved |
| LoopTheorems.AbortedCallSaysSo | packages/agent/src/agent-loop.ts:862-881 | In an aborted run a call whose tool did not resolve is carried out as the error of an aborted tool |
| LoopTheorems.RefusalIsReported | packages/agent/src/agent-loop.ts:764-824 | A call ruled out by its arguments or by the hook before it ends as an error with the reason given, and asks for no end of the run; an empty reason gets the standard text |
| LoopTheorems.UnknownToolIsReported | packages/agent/src/agent-loop.ts:771-778 | A call of a tool nobody knows ends as an error that says so |
| LoopTheorems.UpdateIsTold | packages/agent/src/agent-loop.ts:832-848 | An update that a tool gives before any abort is told to listeners, for its call and as it was given, before any tool settles or gives another |
| LoopTheorems.ToldWasGiven | packages/agent/src/agent-loop.ts:832-848 | Listeners are told of no update but the one a tool gave last, before any abort, and of that only once |
| LoopTheorems.ResultCarriesTheEnd | packages/agent/src/agent-loop.ts:935-963 | Each tool result message has the call id, the tool, the text and the error mark that the end of its call reported |
| LoopTheorems.SequentialExactly | packages/agent/src/agent-loop.ts:592-601 | A batch is sequential exactly if the run is configured so or a called tool, the first of its name, is |
| LoopTheorems.AsksForAnother | packages/agent/src/agent-loop.ts:355-361 | A turn asks for another exactly if its response called tools and did not fail, and not every call that was made ended with the hint to terminate, or none was made |
| LoopTheorems.InvokedAtMostOnce | packages/agent/src/agent-loop.ts:758-881 | No tool is invoked twice for one call, under every interleaving: the invocations in the trace since the batch was dispatched are none or one |
| LoopTheorems.ToolEndsForAReason | packages/agent/src/agent-loop.ts:758-881 | A call ends only if its tool was invoked exactly once, or its arguments or the hook before it ruled it out, or the tool does not exist, or the run was aborted |
| LoopTheorems.TranscriptIsMessageEnds | packages/agent/src/agent-loop.ts:330-362 | The closed turns plus what the open turn has said are the `message_end` payloads of the run, in order |
| LoopTheorems.PolledIsDelivered | packages/agent/src/agent-loop.ts:314-443 | In a run that ended unaborted the messages injected into turns are the prompts followed by everything polled, in order: no drained batch is lost to a stop hook, and each source stays in order |
| LoopTheorems.DeliveredInOrder | packages/agent/src/agent-loop.ts:314-443 | What one source gave up is in the transcript of a closed unaborted run, in the order in which it was queued |
| LoopTheorems.TranscriptStartsWithPrompts | packages/agent/src/agent-loop.ts:255-269 | A closed run said all messages of its turns, its prompts before anything else |
| LoopTheorems.PollsBySource | packages/agent/src/agent-loop.ts:167-179 | What a source gave to its polls, taken from the tagged record of all polls, is what was polled from that source alone |
| LoopTheorems.ContinuationAfterEmptyFollowUp | packages/agent/src/agent-loop.ts:411-436 | Unless aborted, continuations are asked for only after a follow-up poll that came back empty, with no steering poll in between |
| LoopTheorems.HooksAnswerBeforePolls | packages/agent/src/agent-loop.ts:369-424 | Before every poll of a run not aborted, but for the first, the stop hooks answered since the last one: the hook behind the turn and the one before the next turn before steering, the latter twice before follow-ups and once before continuations |
| LoopTheorems.StopIsFinal | packages/agent/src/agent-loop.ts:369-424 | Once a stop hook has said so the loop does nothing more but end the run |
| LoopTheorems.EndsForAReason | packages/agent/src/agent-loop.ts:304-449 | A run not aborted ends only after a failed response, a stop hook that said so, or an empty poll of continuations at this boundary |
| LoopTheorems.NothingAfterAThrow | packages/agent/src/agent-loop.ts:304-449 | After a listener or another callback threw, except an abort error in an aborted run, the loop does nothing more |
| LoopTheorems.TurnsAlternate | packages/agent/src/agent-loop.ts:318-361 | `turn_start` and `turn_end` strictly alternate, the last turn being open or closed as the state says |
| LoopTheorems.RunIsBracketed | packages/agent/src/agent-loop.ts:261-295 | `agent_start` is emitted at most once and after nothing else the loop did; after `agent_end` the loop does nothing more |
| LoopTheorems.StartsWithAgentStart | packages/agent/src/agent-loop.ts:261-262 | The first thing any run does is to emit `agent_start` |
| LoopTheorems.EndsWithAgentEnd | packages/agent/src/agent-loop.ts:445-449 | The last thing a closed run does is to emit `agent_end` with all messages of its turns |
| LoopTheorems.BracketsNeverNest | packages/agent/src/agent-loop.ts:318-449 | In every legal trace the message events are brackets one after the other, each a start, updates and an end; the k-th ends with the k-th message spoken; those of announced messages and tool results carry one message and no updates, those of responses only assistant messages |
| LoopTheorems.BracketsAreTheEvents | packages/agent/src/agent-loop.ts:318-449 | The brackets of a trace, written out, are all its message events in order |
| LoopTheorems.OneMoreBracket | packages/agent/src/agent-loop.ts:451-583 | Between two points of a run with one message more, listeners saw exactly one bracket more, which ended with it |
| LoopTheorems.ExcusesAreVisible | packages/agent/src/agent-loop.ts:451-583 | A trace is less than legal only if a stream in it emitted `start` twice in a turn, or a listener rejected with an abort error while an aborted response was delivered: both can be seen in it, and neither is the loop's doing |
| LoopTheorems.CallEventsAreBracketed | packages/agent/src/agent-loop.ts:667-726 | For every interleaving, the events of each tool call since its batch was dispatched are one start, then updates, then at most one end, with nothing after the end |
| LoopTheorems.ParallelEventsPrecedeResults | packages/agent/src/agent-loop.ts:715-735 | When a tool result opens its bracket in a parallel batch, every call of the batch has started and ended, and the results come in source order whatever the order of completion |
| LoopTheorems.AgentRefinesProtocol | packages/agent/src/agent.ts:552-571 | The agent's rebuilt transcript is its old transcript plus the `message_end` payloads, its open message is the open bracket, and with unique ids its pending calls are the started and not ended ones, at every event |
| LoopTheorems.NothingPendingAtTurnEnd | packages/agent/src/agent.ts:561-573 | When a turn ends no tool call is pending in the agent and no message is open |
| AgentState.PendingMessageQueue.Enqueue | packages/agent/src/agent.ts:123-128 | An empty batch is dropped; any other joins the end whole, and counts as accepted |
| AgentState.PendingMessageQueue.Drain | packages/agent/src/agent.ts:134-147 | `all` takes everything in order; `one-at-a-time` takes the first batch whole and nothing else; what is taken plus what stays is what was there |
| AgentState.PendingMessageQueue.Clear | packages/agent/src/agent.ts:149-151 | Everything that waited is dropped, in order; what was taken stays taken |
| AgentState.PendingMessageQueue.RemoveWhere | packages/agent/src/agent.ts:153-165 | A batch with a matching message is dropped whole; the others stay, in order; nothing is forgotten |
| AgentState.RemovalSplits | packages/agent/src/agent.ts:153-165 | Removed and retained batches are together exactly the old batches, and membership in each is decided by whether a message of the batch matches |
| AgentState.NothingDropped | packages/agent/src/agent.ts:118-166 | With nothing dropped, what was taken and what waits are exactly what was accepted, in order |
| AgentState.Agent.ApplyEvent | packages/agent/src/agent.ts:552-590 | One event changes the agent's view by exactly one step of the fold over events |
| AgentLoop.Loop.RaceWithAbort | packages/agent/src/agent-loop.ts:38-106 | Under an aborted signal the race is interrupted at once; it is interrupted only when the signal has aborted; the signal never goes back |
| AgentLoop.Loop.PollMessagesUnlessAborted | packages/agent/src/agent-loop.ts:167-179 | An aborted run polls nothing; otherwise what one drain hands out is recorded as owed, even if an abort then throws it away |
| AgentLoop.Loop.PollQueue | packages/agent/src/agent.ts:282-310 | A poll takes nothing or exactly what one drain hands out: everything that waits, or in one-at-a-time mode the first batch whole; it records that and what others withdrew before it, and nothing else leaves the queues |
| AgentLoop.Loop.DrainSource | packages/agent/src/agent.ts:479-487 | One drain of the named queue: it hands out exactly what its mode says of what waits there, the rest still waits, and the other queue is untouched |
| AgentLoop.Loop.PollContinuation | packages/agent/src/agent-loop.ts:423-436 | Whatever the continuation hook returns is recorded and joins the owed messages; an answer is used only if the run was not already aborted |
| AgentLoop.Loop.FinishMessage | packages/agent/src/agent-loop.ts:544-576 | Every path that ends a response replaces the partial in the last context slot, if there was one, by the final message, opens a bracket if none is open, and closes it |
| AgentLoop.Loop.OnPartial | packages/agent/src/agent-loop.ts:516-542 | A start adds a partial to the context and opens the bracket; an update overwrites the last slot |
| AgentLoop.Loop.StreamAssistantResponse | packages/agent/src/agent-loop.ts:451-583 | The provider is called exactly once, unless the run is aborted before; every return path (done, error, early end of the stream, abort before or after the start) leaves the context as it was plus the result, which is what the stream's recorded result settled with, or in an aborted run the message that stands in for it; listeners have seen exactly one more message bracket, which ends with it; it throws only in an aborted run or what something it called threw |
| AgentLoop.Loop.SettleExecution | packages/agent/src/agent-loop.ts:854-880 | The execution is exactly what the tool's recorded outcome, its first rejected update and the abort signal make of the call; under an aborted signal it is an aborted error |
| AgentLoop.Loop.ExecutePreparedToolCall | packages/agent/src/agent-loop.ts:827-881 | A cleared call is invoked once unless the run was aborted, its updates are let out, and what it comes to is what was recorded of its tool and updates; nothing else about the run changes |
| AgentLoop.Loop.ExecuteToolCallsSequential | packages/agent/src/agent-loop.ts:607-665 | Calls run one after the other, each with its result message before the next; unless aborted, every call is answered |
| AgentLoop.Loop.StepEntry | packages/agent/src/agent-loop.ts:690-726 | One step of one parallel call: it may start, update, settle or end, touches no other call's state, and ends as what was learnt of it says |
| AgentLoop.Loop.RunParallelCalls | packages/agent/src/agent-loop.ts:690-726 | Under any interleaving of the calls' steps all calls end, each outcome at its own position |
| AgentLoop.Loop.ExecuteToolCallsParallel | packages/agent/src/agent-loop.ts:667-752 | All calls start in source order, run interleaved, and their results are emitted in source order after all have ended |
| AgentLoop.Loop.ExecuteToolCalls | packages/agent/src/agent-loop.ts:585-605 | A batch is sequential if the loop or any requested tool says so, and parallel otherwise |
| AgentLoop.TallyTerminates | packages/agent/src/agent-loop.ts:754-756 | The batch ends the run exactly when there is a call and every outcome asks for it |
| AgentLoop.Loop.InjectPending | packages/agent/src/agent-loop.ts:330-340 | Pending messages are announced and join the context and the new messages, in order, before the response |
| AgentLoop.Loop.RespondAndExecute | packages/agent/src/agent-loop.ts:341-368 | A turn after its injections: one provider call, response, tool batch, `turn_end`; exactly one turn is closed, and context and new messages are again what listeners saw |
| AgentLoop.Loop.AfterTurn | packages/agent/src/agent-loop.ts:369-409 | After a turn the stop hooks are asked and obeyed, then steering is polled; a non-empty steering batch is never dropped by a stop hook |
| AgentLoop.Loop.WhenIdle | packages/agent/src/agent-loop.ts:411-445 | With nothing left to do follow-ups are polled, then continuations, a stop hook being asked and obeyed before each; a non-empty batch opens another turn |
| AgentLoop.Loop.RunLoop | packages/agent/src/agent-loop.ts:304-449 | Every path, under every answer of hooks, tools, streams and listeners and any abort, emits a legal trace, unless the trace shows a stream or a listener breaking its contract; a loop that returns has closed the run, with nothing thrown on the way, and with context and new messages as listeners saw them; it throws only the abort error in an aborted run, or an error that something it called threw |
| AgentLoop.Loop.RunAgentLoop | packages/agent/src/agent-loop.ts:247-270 | The same for a run with prompts, which it announces first |
| AgentLoop.Loop.RunAgentLoopContinue | packages/agent/src/agent-loop.ts:272-295 | The same for a continuation, which is refused, with the source's error, on an empty transcript or after an assistant message |
| AgentLifecycle.RunWithLifecycle | packages/agent/src/agent.ts:491-543 | At most one run is active; a run has exactly the agent's transcript, tools and mode and the given prompts, and skips its first steering poll exactly if told to; every run that ends, by returning, throwing or aborting, leaves the agent idle with its promise resolved and the transcript its old one plus what listeners saw; after a throw it ends with one assistant message, aborted or failed, that carries the error, and the error is that of the abort, of a refusal or of something the run called; queues lost exactly what was polled or withdrawn |
| AgentLifecycle.ExecuteLoop | packages/agent/src/agent.ts:423-449 | The loop a run executes starts from the agent's transcript, and its transcript afterwards is the old one plus everything listeners saw end, even when the loop throws |
| AgentLifecycle.HandleRunFailure | packages/agent/src/agent.ts:516-535 | A run that threw becomes one assistant message with the error's message and stop reason aborted or error, as the signal says |
| AgentLifecycle.FinishRun | packages/agent/src/agent.ts:537-543 | The agent is idle and the run's promise is resolved |
| AgentLifecycle.RunConserving | packages/agent/src/agent.ts:423-449 | After an unaborted run that kept the contracts and returned, its turns are what was added to the agent's transcript, the messages injected are the prompts and everything polled, and every message a queue ever accepted was taken before, is in the added transcript, waits or was withdrawn by others, all in the order of arrival |
| AgentLifecycle.NothingWithdrawn | packages/agent/src/agent.ts:118-166 | If nobody withdrew messages, a queue's accepted messages are those taken before the run, those it delivered and those waiting, in order |
| AgentLifecycle.Prompt | packages/agent/src/agent.ts:341-348 | A prompt is refused while a run is active; otherwise the run's transcript starts with the given messages, and both queues are conserved |
| AgentLifecycle.DrainForContinuation | packages/agent/src/agent.ts:358-369 | Queued steering is preferred to queued follow-ups; exactly one drain is made of the chosen queue, by its mode, and nothing is taken from the other |
| AgentLifecycle.Continue | packages/agent/src/agent.ts:352-402 | Refused exactly while busy, or with nothing queued on a transcript that is empty or ends with an assistant message; on a transcript that is empty or ends with an assistant or custom message, what one drain of the queues hands out, steering first, becomes the prompts of the run, and exactly a run on queued steering skips its first steering poll; the run conserves both queues and adds its turns to the transcript |
| Display.QueriesInfixFree | scripts/benchmarks/terminal.py:17-32 | No terminal query occurs inside another, at any position |
| Display.MeaningRebuildsInput | scripts/benchmarks/terminal.py:42-66 | The text shown, the queries answered and the text held back rebuild the input exactly |
| Display.MeaningOfConcatenation | scripts/benchmarks/terminal.py:42-66 | Reading more input continues from the held text alone, for any table of queries none of which occurs in another |
| Display.ChunkingIsInvisible | scripts/benchmarks/terminal.py:42-66 | However the input is cut into chunks, what is let out and what is held are those of the whole input |
| Display.SameInputSameOutput | scripts/benchmarks/terminal.py:42-66 | Two chunkings of one input are indistinguishable for the program's own queries |
| Display.MeaningOfLeftmost | scripts/benchmarks/terminal.py:47-57 | Answering the leftmost query and going on behind it is the meaning of the whole text |
| Display.MeaningOfTail | scripts/benchmarks/terminal.py:58-66 | With no query left, exactly the longest suffix that begins a query is held back |
| Display.LeastMatch | scripts/benchmarks/terminal.py:47-53 | Finds the leftmost query of the text, or none |
| Display.LongestHeld | scripts/benchmarks/terminal.py:58-64 | Finds the longest suffix of the text that is a proper prefix of a query |
| Display.Display.Feed | scripts/benchmarks/terminal.py:42-66 | One chunk lets out and holds back what the held text and the chunk mean, and sends exactly the replies this calls for, in order; it fails only at an answer that is due next, because there is no room for it or a write has thrown, after everything before it was let out |
| Display.FeedChunks | scripts/benchmarks/terminal.py:42-66 | A display fed chunk after chunk lets out, holds back and answers exactly what the whole input calls for; it stops short only at an answer that is due and cannot be sent, so an input without a query is always shown in full |
| Display.InputQueue.Send | scripts/benchmarks/terminal.py:92-97 | A text that would exceed the limit is refused whole; otherwise it is queued whole, and reaches the child once and in order; the call fails only for want of room or because a write threw |
| Display.InputQueue.FlushInput | scripts/benchmarks/terminal.py:99-107 | A partial write moves exactly a prefix of what is pending to the child |
| Painter.PutCellsThatFit | packages/tui/src/fullscreen.ts:800-806 | Cells that fit overwrite exactly their columns of the cursor's row |
| Painter.RepaintRow | packages/tui/src/fullscreen.ts:800-806 | Moving to a row, erasing it and printing the clamped line makes the row show that line and blanks, and touches no other row |
| Painter.Painter.Paint | packages/tui/src/fullscreen.ts:784-816 | After a paint every row shows its line of the frame: the last rows of a frame that is too tall, a line that fits as it is and any other cut to the width, nothing behind it and nothing below; only rows whose line changed are erased unless the size changed; the cursor stands where asked; the paint is one synchronised update |
| Painter.PictureShows | packages/tui/src/fullscreen.ts:784-815 | The picture of a frame shows on each row the cells of its line if they fit, those of the line cut to the width otherwise, then blanks, and nothing below the frame |
| Painter.Painter.Reset | packages/tui/src/fullscreen.ts:819-821 | After a reset the next paint is right about any screen |
| Painter.Session | packages/tui/src/fullscreen.ts:784-821 | Over any sequence of paints and resets with changing sizes the terminal shows the last painted frame, row by row and cell by cell |
| Viewport.FullscreenViewport.ComposeFrame | packages/tui/src/fullscreen.ts:133-186 | The frame has exactly the given height: the bottom rows of the header, the window, the bottom rows of the dock, each row given outright; the dock is cut only to leave three rows of transcript, the header only below that; the scroll position is in range, at the end when following, and kept when paused |
| Viewport.DrawnExactly | packages/tui/src/fullscreen.ts:171-178 | A drawn transcript line is the highlighted line, or the placeholder in place of an image |
| Viewport.FullscreenViewport.DrawWindow | packages/tui/src/fullscreen.ts:171-178 | The window shows the transcript from the scroll position on, blank below its end |
| Viewport.PausedWindowIsStable | packages/tui/src/fullscreen.ts:133-186 | The window of a paused full view, and its position, do not depend on what is appended |
| Viewport.FullscreenViewport.ComposeAcrossAppend | packages/tui/src/fullscreen.ts:133-180 | Of two frames composed while paused, with lines appended in between, the second is the first one if its window was full |
| Viewport.FollowingWindowShowsTheEnd | packages/tui/src/fullscreen.ts:133-186 | A following window shows the last transcript line, with only blanks below it |
| Viewport.FullscreenViewport.ScrollBy | packages/tui/src/fullscreen.ts:824-828 | Scrolling is clamped to the range, and following means standing at the end |
| Viewport.ProjectRows | packages/tui/src/fullscreen.ts:188-199 | A region covers a frame row exactly if the row is in the cut and the region's shifted lines contain it |
| Viewport.FullscreenViewport.ProjectionsPointAtTheirLines | packages/tui/src/fullscreen.ts:202-219 | On every row a projection covers, the frame shows the header, transcript or dock line the projection says |
| Viewport.FullscreenViewport.LookupInvertsProjection | packages/tui/src/fullscreen.ts:490-529 | A screen row is looked up as a transcript line exactly if that line is projected onto that row |
| Viewport.FullscreenViewport.ClampedLookupStaysVisible | packages/tui/src/fullscreen.ts:520-529 | A clamped lookup gives a line that some visible row shows |
| Viewport.SubtractionIsExact | packages/tui/src/fullscreen.ts:245-271 | Painting over a span removes hits inside it and leaves every other hit, with its region, anchor and overlap order, as it was |
| Viewport.FullscreenViewport.SubtractFrameClickCoverage | packages/tui/src/fullscreen.ts:245-261 | The reverse splicing in place leaves the pieces of every target in their order |
| Viewport.FullscreenViewport.ClickTargetAt | packages/tui/src/fullscreen.ts:263-271 | The first target covering the position, if any; none at negative positions |
| Viewport.EntryHit | packages/tui/src/fullscreen.ts:221-242 | An entry is hit exactly inside its visible rectangle |
| Restore.Restorer.RestoreSession | packages/coding-agent/src/package-manager-cli.ts:1124-1235 | Requests go out in a fixed order, each at most once, and stop at one that is thrown out of. The session is created first and hears more only if created; notice, pending context and queued actions are sent exactly when there is reason to; a continuation prompt goes out exactly when due and no accepted turn was restored; the queue is resumed exactly when it was restored and no prompt was accepted |
| Restore.Restorer.RestoreAll | packages/coding-agent/src/package-manager-cli.ts:1237-1300 | The log is one such conversation per session, in order, each under all the new ids handed out before it; when the loop completes every session had its own, and the counts and the failures are exactly what they came to; every create request is wired to its own parent's new id or to none; and over the whole log no session is prompted after an accepted turn was restored, nor resumed after an accepted prompt |
| Restore.RemapExactly | packages/coding-agent/src/package-manager-cli.ts:1103-1122 | A session's metadata are kept, but for the parent of a subagent: it is the new id of its old parent exactly if that was restored before, under an id that is not empty, and none otherwise |
| Restore.KnownExactly | packages/coding-agent/src/package-manager-cli.ts:1124-1150 | An old id is known exactly if a session with it was created, and under the new id that the last of those got |
| Restore.CreatedParentIsNamed | packages/coding-agent/src/package-manager-cli.ts:1103-1150 | In every restore, a subagent whose parent was created before it is created under the parent's new id |
| Restore.OrphanNamesNoParent | packages/coding-agent/src/package-manager-cli.ts:1103-1150 | In every restore, a subagent whose parent was not created before it is created without a parent |
| Restore.InterruptedSessionIsPrompted | packages/coding-agent/src/package-manager-cli.ts:1180-1215 | A created session that should resume, was in the middle of something and has nothing queued is sent the continuation prompt |
| Restore.QuietSessionIsNotPrompted | packages/coding-agent/src/package-manager-cli.ts:1180-1215 | A session that was in the middle of nothing, or should not resume, is not |
| Restore.AcceptedTurnReplacesPrompt | packages/coding-agent/src/package-manager-cli.ts:1180-1215 | With its queue restored, a session that was streaming is prompted exactly if the queue holds no accepted turn hidden from the user |
| Restore.AnswersTell | packages/coding-agent/src/package-manager-cli.ts:1124-1235 | In a conversation without repeats, what the log says was sent and accepted is what the answers say |
| Restore.StaysWired | packages/coding-agent/src/package-manager-cli.ts:1103-1122 | Restoring one more session keeps every create request wired to a parent created before it |
| Restore.CreateIsWired | packages/coding-agent/src/package-manager-cli.ts:1103-1122 | A remapped subagent names no parent, or the new id of its own old parent, handed out earlier |
| Restore.ResumedIsRestored | packages/coding-agent/src/package-manager-cli.ts:1124-1235 | A resumed session was restored |
| Restore.StaysOrderly | packages/coding-agent/src/package-manager-cli.ts:1180-1234 | Restoring one more session keeps the order of prompts and resumes of all sessions |
| Coordinator.ShutdownIsSafe | packages/coding-agent/src/package-manager-cli.ts:1434-1452 | The predecessor is told to shut down only while the admission is held, and only with a prepared manifest or when it was not busy and lacks the prepare command |
| Coordinator.ReplacementIsAdmitted | packages/coding-agent/src/package-manager-cli.ts:1490-1499 | The replacement starts once, only after the fence was awaited and the admission released, and only if no daemon answered the first probe, or the predecessor stopped, or it did not answer any more |
| Coordinator.AcceptedExactly | packages/coding-agent/src/package-manager-cli.ts:1320-1358 | A daemon is accepted as the replacement exactly if it has the expected protocol, schema and version, listens on this socket, carries a process id and a complete fence, and shares no mark with the predecessor that is known of it |
| Coordinator.SuccessorIsNotThePredecessor | packages/coding-agent/src/package-manager-cli.ts:1408-1508 | Over every log, a successor that was validated passed the validation against the predecessor that had greeted before |
| Coordinator.UnsupportedIsIdle | packages/coding-agent/src/package-manager-cli.ts:1434-1441 | A predecessor is let go without a manifest only if the probe said that it is idle |
| Coordinator.SurvivorIsRescued | packages/coding-agent/src/package-manager-cli.ts:1453-1477 | A prepared predecessor that would not go has its sessions restored and the manifest deleted before the admission is given up, unless a call was rejected after it had turned out to be still there |
| Coordinator.RestoreIsOfThePrepared | packages/coding-agent/src/package-manager-cli.ts:1511-1528 | A restore that returned went through the manifest that was prepared, with one conversation per session for the session that asked for the update, and counts exactly what they came to; it ran on a validated successor or a surviving predecessor, once |
| Coordinator.CompleteIsEarned | packages/coding-agent/src/package-manager-cli.ts:1500-1537 | Completion is reported only after a validated successor; with a manifest, only after its restore returned and it was deleted, and with the counts of that restore; without one, with no counts |
| Coordinator.SkippedMeansIdle | packages/coding-agent/src/package-manager-cli.ts:1478-1488 | A run is skipped only if the probe found no daemon, and the manifest file that was read held no session |
| Coordinator.WorkIsNeverSkipped | packages/coding-agent/src/package-manager-cli.ts:1408-1488 | A daemon that answers the probe, busy or idle, or a manifest with sessions is never skipped over |
| Coordinator.ManifestOutlivesRestore | packages/coding-agent/src/package-manager-cli.ts:1513-1528 | A prepared manifest is deleted only after a restore loop over it has returned |
| Coordinator.HoldsAreReleasedOnce | packages/coding-agent/src/package-manager-cli.ts:1538-1545 | Lease and admission are each released exactly as often as acquired, at most once |
| Coordinator.WorldRemembers | packages/coding-agent/src/package-manager-cli.ts:1360-1547 | The coordinator's knowledge is exactly what its log of effects and answers says |
| Coordinator.Coordinator.Prepare | packages/coding-agent/src/package-manager-cli.ts:1414-1441 | Preparing ends with a manifest, or with a predecessor that the probe found idle and that lacks the command, or throws |
| Coordinator.Coordinator.StopPredecessor | packages/coding-agent/src/package-manager-cli.ts:1408-1477 | On every outcome of the remote calls only allowed steps were taken while both holds were held; it returns exactly when the prepared predecessor is gone, and one that survived has its sessions back |
| Coordinator.Coordinator.StartReplacement | packages/coding-agent/src/package-manager-cli.ts:1499-1508 | A replacement counts as validated exactly if its greeting passed the validation against the predecessor; it is refused only after a rejected call or a greeting that did not pass |
| Coordinator.Coordinator.RunCoordinator | packages/coding-agent/src/package-manager-cli.ts:1360-1547 | Whatever fails, only allowed effects happened and both holds were given back exactly once; a run of its own ends complete, skipped or failed, and it fails only if a call was rejected, the new daemon's greeting was refused or the predecessor would not go; a returned completion or skip was reported by this run, with these counts, or copied from the active coordinator |
| Schema.DefinitionsAgree | scripts/benchmarks/schema.py:268-303 | On a validated side `side_complete` holds exactly if no trial the controller runs has errors and no sample failed with an empty error string |
| Schema.SilencedSidesDisagree | scripts/benchmarks/schema.py:268-297 | On any complete side, failing any one sample with an empty message leaves every trial without errors and the side incomplete |
| Schema.FullSideIsComplete | scripts/benchmarks/schema.py:277-296 | A side with every metric measured in every trial is valid and complete |
| Schema.SilentFailureDisagrees | scripts/benchmarks/schema.py:268-297 | For every configuration, a concrete side on which no trial has errors and which is not complete: everything measured, except a bundle that failed with an empty message |
| Schema.NoTrialErrors | scripts/benchmarks/schema.py:268-274 | A trial has no errors exactly if the side has none, none of its due samples has one, and every due metric was observed |
| Schema.CoveringCounts | scripts/benchmarks/schema.py:277-296 | Distinct trials below a bound that cover all of them are exactly that many |
| Controller.StreakIsMaximal | scripts/benchmarks/controller.py:326-328 | The streak is the longest run of identical failures at the end of the attempts |
| Controller.NoLongRun | scripts/benchmarks/controller.py:286-347 | When no streak exceeds the limit, no window of more than that many consecutive attempts failed with one and the same message |
| Controller.SuccessExactly | scripts/benchmarks/controller.py:311-325 | An attempt counts as a success exactly if the trial threw nothing and has no errors of its own |
| Controller.ExtendSchedule | scripts/benchmarks/controller.py:325-339 | One attempt more keeps every streak within the limit; the role is blocked exactly when the streak reaches it with trials left |
| Controller.RemembersBumped | scripts/benchmarks/controller.py:325-340 | After an attempt the failures map again holds exactly each role's current streak |
| Controller.Controller.RunPhaseTrials | scripts/benchmarks/controller.py:293-347 | However a phase ends, no role exceeds the limit of identical consecutive failures; in a completed one a role that stopped early has exactly that many as its last attempts, the roles that tried nothing are those without a successful first installation where it is needed, and every other role ran every trial |
| Controller.Controller.Attempt | scripts/benchmarks/controller.py:311-346 | One attempt, even one that is cut short, leaves every role within the limit; a completed one appends exactly the failure that its exception and the errors of its trial make up |
| Controller.Controller.RunPhases | scripts/benchmarks/controller.py:286-347 | The phases run in their order, all but the last one reached to their end, each recorded with its schedule; if they do not complete, the last one reached did not |
| Controller.Controller.InitiallyBlocked | scripts/benchmarks/controller.py:295-304 | Exactly the roles without a successful first installation are blocked, in the phases that need it |
| Controller.Controller.Save | scripts/benchmarks/controller.py:100-107 | A saved report is completed only if it is complete; a completed status that is not is downgraded to partial |
| Controller.Controller.Run | scripts/benchmarks/controller.py:252-390 | Over a whole run only a complete report is ever called completed; an interruption leaves the run canceled or failed, and so does a run without a ready role; in every phase reached the schedule was kept |
| Controller.Controller.FinishRun | scripts/benchmarks/controller.py:348-357 | The final status is completed exactly as far as the report is complete and a role was ready; an interruption gives canceled or failed |
| Fuzzy.GreedyIsLeftmost | packages/tui/src/fuzzy.ts:30-53 | The greedy places spell the query and lie nowhere later than any other embedding |
| Fuzzy.GreedyIsComplete | packages/tui/src/fuzzy.ts:16-57 | Greedy matching succeeds exactly if the query is a subsequence of the text |
| Fuzzy.MatchQuery | packages/tui/src/fuzzy.ts:16-64 | The loop matches exactly the subsequences and scores the leftmost places: runs, gaps, word starts, lateness, exactness |
| Fuzzy.OneCharacterScore | packages/tui/src/fuzzy.ts:30-53 | One character scores a tenth of its place, ten less at a word start, and five less at the very beginning |
| Fuzzy.SecondCharacterScore | packages/tui/src/fuzzy.ts:30-53 | A second character adds the reward of a run or twice the length of the gap, and its own place and word start |
| Fuzzy.ExactMatchIsRewarded | packages/tui/src/fuzzy.ts:60-62 | A text that is the query scores exactly a hundred better than any text that goes on behind it |
| Fuzzy.SwapCostsFive | packages/tui/src/fuzzy.ts:71-88 | A query found only with letters and digits swapped scores five worse than the swapped query |
| Fuzzy.SwappedExactly | packages/tui/src/fuzzy.ts:71-77 | A swap exists exactly for letters followed by digits or digits followed by letters, and undoes itself |
| Fuzzy.FuzzyMatch | packages/tui/src/fuzzy.ts:12-89 | A match is reported exactly if the lower-cased query, or its swap, is a subsequence of the lower-cased text |
| Fuzzy.TokensAreTheWords | packages/tui/src/fuzzy.ts:102-105 | The tokens are the words of the query, whatever spaces surround and separate them |
| Fuzzy.ScoreItem | packages/tui/src/fuzzy.ts:114-126 | An item's score is the sum over all tokens, and it matches exactly if every token does |
| Fuzzy.MatchingKeepsExactly | packages/tui/src/fuzzy.ts:113-131 | The items kept are exactly those in which every token is found, with all their occurrences |
| Fuzzy.SortIsStable | packages/tui/src/fuzzy.ts:133 | Sorting by score keeps the given order among equal scores |
| Fuzzy.StableSortIsUnique | packages/tui/src/fuzzy.ts:133 | Sorted and stable leave only one possible result |
| Fuzzy.FuzzyFilterScored | packages/tui/src/fuzzy.ts:101-135 | The matching items, sorted by score and stable; without tokens every item, unscored |
| Fuzzy.FuzzyFilter | packages/tui/src/fuzzy.ts:141-146 | A blank query returns the items as they are; otherwise exactly those in which every token is found, in the order of the stable sort by score |
| Framing.JoinOfSplit | scripts/benchmarks/kernel.py:72-74 | Joining the parts gives back the input, and no part holds the separator |
| Framing.SplitOfJoin | scripts/benchmarks/kernel.py:72-74 | No other parts join to the same input |
| Framing.LinesOfPieces | scripts/benchmarks/kernel.py:57-76 | A framer that keeps only the unfinished line delivers the lines of the whole input, however it was cut |
| Kernel.Kernel.Event | scripts/benchmarks/kernel.py:57-79 | Each event is the next complete line of the output, and one that waits is handed over before more is read; a call fails only with no complete line left, for want of output, at its end or beyond the limit, or on a line that does not parse |
| Kernel.PiecesDoNotMatter | scripts/benchmarks/kernel.py:57-76 | Two clients that read the same output in different pieces take the same lines |
| Kernel.Kernel.Send | scripts/benchmarks/kernel.py:85-92 | Partial writes are continued until the whole request and its newline are written; a failed write leaves a proper prefix |
| Kernel.RequestsArriveWhole | scripts/benchmarks/kernel.py:85-92 | A process that splits its input at newlines gets back exactly the requests sent |
| Kernel.Kernel.Done | scripts/benchmarks/kernel.py:94-110 | The events returned are the next lines up to and including the first that finishes the request, with the status asked for; a failure says which of the lines taken it is due to, or that none was left |
| Proxy.BlockMore | packages/agent/src/proxy.ts:219-329 | One event takes a block to exactly what is said of all events addressed to it since its last start |
| Proxy.RunsAreOfOneKind | packages/agent/src/proxy.ts:219-329 | Accepted events leave every block with deltas and ends of its own kind only |
| Proxy.ArgumentsAreParsed | packages/agent/src/proxy.ts:287-317 | A tool call whose deltas all come before its end has the parse of all of them joined as its arguments |
| Proxy.ArgumentsExactly | packages/agent/src/proxy.ts:291-329 | The text parsed last is all deltas joined exactly if no end precedes the last delta, or the deltas before the last such end join to the word "undefined" |
| Proxy.LateDeltaSpoils | packages/agent/src/proxy.ts:301-329 | A start, a delta x, an end and a delta y are accepted, and the parser is given "undefinedy" in place of "xy" |
| Proxy.JsonAfterEnd | packages/agent/src/proxy.ts:287-317 | After an end the kept JSON text starts again from the word "undefined", so late deltas spoil it |
| Proxy.RebuiltBlocks | packages/agent/src/proxy.ts:219-329 | Every rebuilt block: text and thinking are the joined deltas and the last signature, a tool call has its start's id and name and the parse of the text kept for it, which is the joined deltas under the exact condition |
| Proxy.ProxyStream.ProcessProxyEvent | packages/agent/src/proxy.ts:219-343 | An event that does not fit its block throws and changes nothing; any other updates only its own block |
| Proxy.ProxyStream.ReadBody | packages/agent/src/proxy.ts:163-195 | The events processed are those of the complete data lines read so far, independent of the reads; reading stops exactly for an abort, a broken connection, a bad payload or a misplaced event |
| Proxy.ProxyStream.StreamProxy | packages/agent/src/proxy.ts:107-216 | The consumer sees the replies up to the first terminal event; a failure adds one error event unless the stream had ended; nothing follows a terminal event; whatever the ending, exactly the complete lines received until then were processed: all of them when it completes, those before the read that broke, before the abort, or before the payload it stopped at |
| Proxy.ConsumerSees | packages/agent/src/proxy.ts:219-343 | The consumer is shown every accepted event in turn: starts and deltas as they came, the end of a text or thinking block with all deltas of the block, the end of a tool call with the call it rebuilt, and nothing of a stray end or an unknown event |
| Proxy.PayloadExactly | packages/agent/src/proxy.ts:179-182 | A line carries a payload exactly if it begins with the data field's six characters and is not blank behind them; the payload is the trimmed rest |
| Proxy.ReadsDoNotMatter | packages/agent/src/proxy.ts:163-191 | Two streams of the same text in different reads rebuild the same message, whether they ran to the end or stopped at a payload they refused |
| Proxy.RefusedStops | packages/agent/src/proxy.ts:163-191 | A stream that ran to the end of its payloads, or stopped at one it refused, has processed at least what any other stream of them has, and the same events in the same order |
| CatalogMerge.TakeInConserves | packages/ai/scripts/import-mcp-catalog.ts:1025-1163 | The exclusion report and the remote, template and SSE records hold the curated list and exactly once every server that is not on it |
| CatalogMeaning.ReadExactly | packages/ai/scripts/import-mcp-catalog.ts:1025-1070 | The servers read are exactly those declared by the plugins, with their names, but for local adapters |
| CatalogMerge.SharingIffEqual | packages/ai/scripts/import-mcp-catalog.ts:1166-1183 | Two parsable static records share a group exactly if their reviewed URLs are equal |
| CatalogMerge.GroupingConserves | packages/ai/scripts/import-mcp-catalog.ts:1166-1183 | Every static record is excluded as unparsable or in exactly one group |
| CatalogMerge.FirstGroupTakes | packages/ai/scripts/import-mcp-catalog.ts:1201-1212 | A template goes to the first group that has its plugin from another source, and stays free exactly if there is none |
| CatalogMerge.HttpEntriesConserve | packages/ai/scripts/import-mcp-catalog.ts:1188-1215 | Grouped records and templates end up in the provenance of the entries or stay free |
| CatalogMerge.FirstOfEachExactly | packages/ai/scripts/import-mcp-catalog.ts:498-507 | A field is kept exactly if none before it has its id |
| CatalogImport.DedupeFields | packages/ai/scripts/import-mcp-catalog.ts:498-507 | The first field of each id, sorted; no two with one id |
| CatalogImport.Importer.AttachTemplates | packages/ai/scripts/import-mcp-catalog.ts:1201-1212 | The reverse splicing takes out exactly the wanted templates, last first, and keeps the others in order |
| CatalogImport.BuildHttpEntry | packages/ai/scripts/import-mcp-catalog.ts:1508-1590 | One entry per group: identity of its first record, provenance of all records and attached templates, setup needed exactly if any of them is blocked |
| CatalogImport.Importer.GroupRemotes | packages/ai/scripts/import-mcp-catalog.ts:1166-1183 | The groups in the order of their first record, each with all records of its reviewed URL; the others are excluded |
| CatalogImport.Importer.Merge | packages/ai/scripts/import-mcp-catalog.ts:1018-1318 | The entries are exactly those that the servers read lead to, and exclusion report and provenance together name, with multiplicity, the curated list and all other servers |
| CatalogImport.ExactlyOnce | packages/ai/scripts/import-mcp-catalog.ts:1018-1318 | With no server declared twice and no key curated twice, every server is excluded once or named once in the provenance of one entry, never both |
| CatalogMeaning.ReportExactly | packages/ai/scripts/import-mcp-catalog.ts:1025-1183 | A server is in the exclusion report under a reason exactly if it is curated out, or it is a Claude server that is a command, or at a loopback endpoint, or neither a template nor https, in this order of precedence, or its remote URL cannot be reviewed |
| CatalogMeaning.RemotesExactly | packages/ai/scripts/import-mcp-catalog.ts:1041-1160 | The remote records are exactly those of the uncurated OpenAI servers, of the https servers that are no command, SSE, loopback or template, and of the templates that resolve |
| CatalogMeaning.SseExactly | packages/ai/scripts/import-mcp-catalog.ts:1116-1120 | The SSE records are exactly those of the uncurated Claude servers of that type that are no command |
| CatalogMeaning.TemplatesExactly | packages/ai/scripts/import-mcp-catalog.ts:1126-1150 | The template records are exactly those of the templates that do not resolve |
| CatalogMeaning.RemoteServerIsKept | packages/ai/scripts/import-mcp-catalog.ts:1025-1215 | Every remote server whose URL can be reviewed is named in an HTTP entry |
| CatalogMeaning.SseServerIsKept | packages/ai/scripts/import-mcp-catalog.ts:1116-1288 | Every SSE server is named in an entry at its URL, which needs setup |
| CatalogMeaning.TemplateIsKept | packages/ai/scripts/import-mcp-catalog.ts:1126-1258 | Every open template is named in the HTTP entry that took it, or in a template entry that needs setup |
| CatalogMeaning.AdapterIsKept | packages/ai/scripts/import-mcp-catalog.ts:1071-1316 | Every local adapter plugin with an uncurated command becomes an entry that runs exactly those commands |
| CatalogMeaning.NamedInOneEntry | packages/ai/scripts/import-mcp-catalog.ts:1018-1318 | With no server declared twice and no key curated twice, a server is named in at most one entry |
| CatalogMeaning.EntryOfGroup | packages/ai/scripts/import-mcp-catalog.ts:1508-1590 | The entry of a group stands at the URL of its first record and bears its identity, and is ready exactly if no record and no attached template has a block |
| CatalogMeaning.FieldsOfEntry | packages/ai/scripts/import-mcp-catalog.ts:1508-1590 | An entry that needs setup collects exactly what its records and attached templates ask for, each id once |
| CatalogMeaning.CuratedExactly | packages/ai/scripts/import-mcp-catalog.ts:1320-1335 | Curated data takes the place of what was found, item by item, and of nothing else |
| CatalogShipping.ApplyAudit | packages/ai/scripts/import-mcp-catalog.ts:924-1015 | Both passes give every entry the setup its audit evidence leads to, or the import stops on an entry without a requirement |
| CatalogShipping.ShippedIsEarned | packages/ai/scripts/import-mcp-catalog.ts:924-1015 | An entry nobody classified by hand ships one-click only on standard OAuth evidence, and otherwise only with a pasteable key or token, over HTTP (or over SSE if curated as ready) |
| CatalogMeaning.OneClickExactly | packages/ai/scripts/import-mcp-catalog.ts:971-986 | An entry becomes one-click exactly if it is curated so, or is a ready remote endpoint with standard OAuth evidence and no curated readiness |
| CatalogMeaning.OtherReadyExactly | packages/ai/scripts/import-mcp-catalog.ts:932-993 | A ready remote endpoint without an audit, or with evidence of neither kind, is unknown; with evidence for the user's own app only it is demoted to setup with a registered client |
| CatalogMeaning.RequirementExactly | packages/ai/scripts/import-mcp-catalog.ts:994-1002 | An audited HTTP endpoint that is not ready gets its curated requirement, or one derived from the fields it collects; without either the import stops |
| CatalogMeaning.OtherTransportsExactly | packages/ai/scripts/import-mcp-catalog.ts:1004-1014 | An entry that is not remote needs its curated requirement, its tenant or its local runtime |
| CatalogMeaning.StandardOauthExactly | packages/ai/scripts/import-mcp-catalog.ts:721-802 | Standard OAuth evidence, said of document and attempts: a complete document whose registration was not refused, an audience that matches or a fall-back with no pointer, and a public client that is served |
| CatalogMeaning.UserRegisteredExactly | packages/ai/scripts/import-mcp-catalog.ts:805-813 | The user's own app fits exactly if the evidence is standard for a configured client and not for a public one |
| CatalogMeaning.ShippableExactly | packages/ai/scripts/import-mcp-catalog.ts:1395-1429 | An entry ships exactly if it is one-click, or collects one required key or token under a requirement that says so |
| CatalogShipping.CheckCredentials | packages/ai/scripts/import-mcp-catalog.ts:1395-1429 | Passes exactly when every entry is one-click, or collects one required credential of a pasteable kind |
| CatalogShipping.OneCredentialCounted | packages/ai/scripts/import-mcp-catalog.ts:1418-1428 | At most one distinct credential means any two required credentials are names of one |
| CatalogShipping.CheckIdsAndEndpoints | packages/ai/scripts/import-mcp-catalog.ts:1435-1446 | Passes exactly when ids are distinct and every endpoint is https and not loopback |
| CatalogShipping.Classify | packages/ai/scripts/import-mcp-catalog.ts:1341-1429 | Classifying succeeds exactly if every entry of the merge is let through, and gives each the setup that overrides and evidence lead to |
| CatalogShipping.DifferentIdsCounted | packages/ai/scripts/import-mcp-catalog.ts:1434-1440 | Ids differ exactly if there are as many as entries, whatever the order |
| CatalogShipping.AttachedMeansBoth | packages/ai/scripts/import-mcp-catalog.ts:1459-1466 | An entry that took a template counts as merged from both sources |
| CatalogShipping.CountsAddUp | packages/ai/scripts/import-mcp-catalog.ts:1448-1473 | Per-transport, per-status and per-readiness counts each sum to the total, and nothing shipped is restricted or unknown |
| CatalogShipping.BuildCatalog | packages/ai/scripts/import-mcp-catalog.ts:1018-1505 | The import succeeds exactly if the merged entries have different ids and each is classified, shippable and at an allowed endpoint; it then returns them, classified and sorted, and no server is lost: with distinct keys each is excluded once or named once; what ships is earned or curated, and counted |

## Left out

- Infinite runs and streams: the agent loop is watched for a number of turns chosen by the caller, after which the run
  counts as still going on; streams, tool updates and arrivals between two polls are finite but of any length.
- Runs outside the contracts of listeners and streams: a stream that emits `start` twice in a turn, and a listener that
  rejects with an abort error while an aborted response is being delivered. The loop model covers them and its trace
  shows them (`LoopTheorems.ExcusesAreVisible`), but it promises no legal trace for such a run.
- Delivery under abort: polls drain before they race with the abort signal, so the source promises no conservation for
  aborted runs; the model records what was drained and states delivery for unaborted runs.
- `reset` and assignment to the agent's state in the middle of a run; `subscribe`, `waitForIdle` and the getters.
- AgentLoop.Loop.PollQueue: enqueuing, clearing and removing by others are seen at the next drain, where they are
  recorded, and not at the moment they happen.
- Tools that go on in the background after their batch was thrown out of.
- Message payloads: usage, cost, timestamps, images, diagnostics; only role, calls, stop reason, error and a body.
- Fuzzy.MatchQuery: scores are exact reals; binary floating-point rounding of the `0.1` steps is not modelled.
- Proxy.ProxyStream.ReadBody: reads deliver decoded text; the incremental UTF-8 decoder is not modelled.
- Proxy.ProxyStream.StreamProxy: the copy of a tool call made on each delta is a value here, so aliasing between the
  message and events already handed out is not captured; usage is left out.
- Painter.Painter.Paint: the terminal model has cells and a cursor only; colours, escape state carried between rows,
  wide characters split at an edge and two resizes between paints are not modelled.
- Viewport selection, highlighting, tables, links and text extraction; highlighting is an arbitrary function of a line.
- Display.Display.Feed: the screen emulator is replaced by the list of characters and answers it was fed; a reply that
  cannot be sent stops the call in the middle, as an exception does in the source.
- Coordinator.Coordinator.RunCoordinator: a follower copies the status of the active coordinator, so its completion
  rests on the other's log; heartbeats, timeouts' lengths, file formats and the calls' payloads are left out, and
  `release` is assumed not to throw.
- Controller.Controller.RunPhaseTrials: sandboxes, logs, clocks and the budget are arbitrary outcomes; messages are not
  cut to 500 characters.
- Schema: only the fields that completeness depends on; the other validators add no branching to it.
- CatalogMerge.TemplateEntry: the setup fields of a template's variables are a parameter, read off the template's URL.
- CatalogImport.BuildHttpEntry: of an entry only id, identity, transport, provenance and setup.
- CatalogImport.Importer.Merge: labels, services, aliases, descriptions, the merged report and the per-source totals
  are left out; an override is looked up by the triple of source, plugin and server. A server without a command in a
  local adapter plugin is passed over, as in the source.
- CatalogShipping.ApplyAudit: URL canonicalisation, origins and the client-authentication decision are parameters; the
  observational metadata block is left out.
- CatalogShipping.BuildCatalog: the order of the entries is that of an arbitrary comparison; the audit file is taken to
  be present or absent as a whole.
- Network, process and file access, the command line, user interface and generators: they would add I/O or easy
  members only.
