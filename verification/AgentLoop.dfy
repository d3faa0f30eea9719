/**
 * The agent loop: it keeps a private context, emits events to the agent, and polls the agent's
 * queues. Hooks, tools, provider streams and listeners are oracles: wherever the loop awaits one,
 * it may answer anything or throw, and the abort signal may flip for good.
 */
module AgentLoop {
  import opened Wrappers
  import opened Outcomes
  import opened AgentTypes
  import opened LoopProtocol
  import opened AgentState
  import opened LoopTheorems

  datatype Preparation = Prepared | Immediate(output: ToolOutput, isError: bool)

  datatype Finalized = Finalized(call: ToolCall, output: ToolOutput, isError: bool)

  datatype Batch = Batch(messages: seq<AgentMessage>, terminate: bool)

  /** One parallel tool call: a settled outcome, or a task somewhere on its way to one. */
  datatype Entry =
    | NotStarted
    | Executing(listenerFailure: Option<Failure>)
    | Settled(executed: Executed)
    | Finished(finalized: Finalized)

  /** `StillRunning`: the observation window closed at the top of a turn, before the run ended. */
  datatype RunEnd = RunFinished | StillRunning

  datatype PostTurnResult<T> = Completed(value: T) | AbortedPostTurn

  /** How a turn left the loop: it must end now, or go on, perhaps because tools want another response. */
  datatype TurnOutcome = TurnOutcome(ended: bool, hasMoreToolCalls: bool)

  /** What a turn boundary decided: end the run, or go on with these messages pending. */
  datatype Boundary = EndRun | GoOn(pending: seq<AgentMessage>)

  /** One iteration of the inner loop either closed the run or decides whether there is another. */
  datatype LoopStep = LoopEnded | LoopGoesOn(hasMoreToolCalls: bool, pending: seq<AgentMessage>)

  function SettlePostTurn<T>(operation: Awaited<T>, aborted: bool): (r: Awaited<PostTurnResult<T>>) {
    match operation
    case Done(value) => Done(Completed(value))
    case Threw(error) => if aborted && error.abortLike then Done(AbortedPostTurn) else Threw(error)
  }

  function CreateToolResultMessage(f: Finalized): AgentMessage {
    ResultMessage(f.call, f.output, f.isError)
  }

  predicate ShouldTerminateToolBatch(finalizedCalls: seq<Finalized>) {
    |finalizedCalls| > 0 && forall f <- finalizedCalls :: f.output.terminate
  }

  /** A continuation is refused before it begins on an empty transcript, or after an assistant message. */
  predicate RefusedWith(messages: seq<AgentMessage>, error: Failure) {
    if messages == [] then error == Failure(false, "Cannot continue: no messages in context")
    else
      && messages[|messages| - 1].AssistantMessage?
      && error == Failure(false, "Cannot continue from message role: assistant")
  }

  /** Nothing of a turn has happened yet, apart from what was said. */
  predicate Fresh(p: Protocol) {
    !p.dead && p.open.None? && p.response.None? && !p.called && p.stream == NO_STREAM && p.batch.None?
    && p.calls == [] && p.logs == [] && p.results == []
  }

  /** A turn has just closed, or its boundary is being decided. */
  predicate AtBoundary(p: Protocol) {
    p.status.Between? && p.turns != [] && Fresh(p) && p.said == []
  }

  /** At rest after a turn, holding exactly `pending` for the next one. */
  predicate RestingWith(p: Protocol, pending: seq<AgentMessage>) {
    && AtBoundary(p) && !Failed(Last(p).response) && !p.stopping && p.owed == pending
    && (Answered(Last(p)) || p.aborted)
  }

  /** The first turn is open with its prompts delivered, or the next turn may start. */
  predicate TurnReady(p: Protocol, first: bool, pending: seq<AgentMessage>) {
    if first then
      p.status.InTurn? && p.turns == [] && Fresh(p) && !p.stopping && p.owed == p.said + pending
    else
      && RestingWith(p, pending)
      && (pending != [] || (Last(p).wantsMore && (p.aborted || p.asked == [BeforeTurnHook])))
  }

  /** Steering was polled in vain, unless the run was aborted, and the stop hook was asked again. */
  predicate AskedBeforeTurn(p: Protocol) {
    p.asked != [] && (p.aborted || (p.lastPoll == Some(Steering) && p.asked == [BeforeTurnHook]))
  }

  /** After at least one turn, at the head of the inner loop. */
  predicate Looping(p: Protocol, hasMoreToolCalls: bool, pending: seq<AgentMessage>) {
    && RestingWith(p, pending) && Last(p).wantsMore == hasMoreToolCalls
    && (pending == [] ==> AskedBeforeTurn(p))
  }

  lemma NothingRun(s: Setup)
    ensures Run(s, []) == Initial(s)
  {}

  lemma FirstTurnReady(s: Setup, p: Protocol)
    requires p == Initial(s).(status := InTurn, said := s.prompts, aborted := p.aborted)
    ensures TurnReady(p, true, []) && Spoken(p) == s.prompts
  {}

  lemma SpokenWithResponse(p: Protocol, q: Protocol, m: AgentMessage)
    requires Fresh(p) && q == p.(called := q.called, stream := q.stream, response := Some(m), aborted := q.aborted)
    ensures Spoken(q) == Spoken(p) + [m]
  {
    hide Transcript;
  }

  lemma SpokenAfterTurn(p: Protocol, m: AgentMessage)
    requires p.response == Some(m)
    ensures Spoken(NextEvent(p, TurnEnd(m, p.results))) == Spoken(p)
    ensures Transcript(NextEvent(p, TurnEnd(m, p.results)).turns) == Spoken(p)
  {
    var q := NextEvent(p, TurnEnd(m, p.results));
    assert q.turns[..|q.turns| - 1] == p.turns;
    assert Spoken(p) == Transcript(p.turns) + (p.said + [m] + p.results);
  }

  /** The protocol's call states are exactly the finalized outcomes, in order. */
  ghost predicate Tally(finalized: seq<Finalized>, requested: seq<ToolCall>, calls: seq<CallState>) {
    && |finalized| == |calls| <= |requested|
    && forall i | 0 <= i < |calls| ::
         finalized[i].call == requested[i] && calls[i] == Ended(finalized[i].output, finalized[i].isError)
  }

  lemma TallyTerminates(finalized: seq<Finalized>, requested: seq<ToolCall>, calls: seq<CallState>)
    requires Tally(finalized, requested, calls)
    ensures ShouldTerminateToolBatch(finalized) == Terminates(calls)
    ensures NoneRunning(calls)
  {
    assert forall i | 0 <= i < |calls| :: finalized[i] in finalized && calls[i].output == finalized[i].output;
  }

  /** An entry that has not finished stands for a running call of a known tool. */
  ghost predicate Follows(entries: seq<Entry>, requested: seq<ToolCall>, p: Protocol, s: Setup) {
    && |entries| == |p.calls| == |p.logs| <= |requested|
    && forall i | 0 <= i < |entries| ::
         if entries[i].Finished? then
           var f := entries[i].finalized;
           f.call == requested[i] && p.calls[i] == Ended(f.output, f.isError)
         else
           && p.calls[i].Running? && FindTool(s.tools, requested[i].name).Some?
           && EntryFits(entries[i], p.logs[i], s)
  }

  lemma Dispatching(s: Setup, p: Protocol, message: AgentMessage, mode: ToolExecutionMode)
    requires Quiet(p) && p.response == Some(message) && p.batch.None? && !Failed(message) && CallsOf(message) != []
    requires mode == BatchMode(s, CallsOf(message))
    ensures Accept(s, p, BatchDispatched(mode)) && Next(p, BatchDispatched(mode)) == p.(batch := Some(mode))
  {}

  /** How far an entry has come, and what is known of its call. */
  predicate EntryFits(entry: Entry, log: CallLog, s: Setup) {
    match entry
    case NotStarted => ReadyToRun(s, log)
    case Executing(listenerFailure) => Executes(s, log, listenerFailure)
    case Settled(executed) => HasExecuted(s, log, executed)
    case Finished(_) => true
  }

  /** Cleared, and not yet begun. */
  predicate ReadyToRun(s: Setup, log: CallLog) {
    Cleared(s, log) && !log.invoked && log.rejected.None? && log.settled.None? && log.drained.None?
    && log.executed.None? && log.after.None?
  }

  /** The tool is running; `listenerFailure` is the first rejected update. */
  predicate Executes(s: Setup, log: CallLog, listenerFailure: Option<Failure>) {
    Cleared(s, log) && log.invoked && log.rejected == listenerFailure && log.settled.None? && log.drained.None?
    && log.executed.None? && log.after.None?
  }

  predicate HasExecuted(s: Setup, log: CallLog, executed: Executed) {
    Cleared(s, log) && log.executed == Some(executed) && log.after.None?
  }

  /** The tool has settled and its update listeners were awaited, with this outcome. */
  predicate Concluded(s: Setup, log: CallLog, outcome: Awaited<ToolOutput>) {
    && Cleared(s, log) && log.invoked && log.executed.None? && log.after.None?
    && match (log.settled, log.drained)
       case (Some(Threw(error)), _) => outcome == Threw(error)
       case (Some(Done(_)), Some(Some(error))) => outcome == Threw(error)
       case (Some(Done(output)), Some(None)) => outcome == Done(output)
       case _ => false
  }

  /** After a step of the k-th task the entries still follow the calls. */
  lemma FollowsStep(entries: seq<Entry>, requested: seq<ToolCall>, p: Protocol, q: Protocol, s: Setup, k: nat,
                    entry: Entry)
    requires Follows(entries, requested, p, s) && k < |entries| && !entries[k].Finished?
    requires q.calls == if entry.Finished? then p.calls[k := Ended(entry.finalized.output, entry.finalized.isError)]
             else p.calls
    requires |q.logs| == |p.logs| && q.logs == p.logs[k := q.logs[k]]
    requires EntryFits(entry, q.logs[k], s) && (entry.Finished? ==> entry.finalized.call == requested[k])
    ensures Follows(entries[k := entry], requested, q, s)
  {
    hide EntryFits;
  }

  lemma EventsAreNotFatal(s: Setup, p: Protocol, o: Obs)
    requires Accept(s, p, o) && o.Emitted?
    ensures !p.dead && !Next(p, o).dead
  {
    hide AcceptEvent;
  }

  lemma RejectionIsRefusedOrFatal(s: Setup, p: Protocol, error: Failure)
    ensures Accept(s, p, ListenerRejected(error)) <==> !Breach(p, ListenerRejected(error))
    ensures Next(p, ListenerRejected(error)) == p.(dead := true)
    ensures Breach(p, ListenerRejected(error)) <==> error.abortLike && p.aborted && Responding(p)
  {}

  /** A stream that was not over is cut short by an abort. */
  lemma UnreadIsCutShort(p: Protocol)
    requires p.stream.result.None? && !p.stream.over
    ensures FinalReply(p.stream, true, AbortedMessage(p.stream.partial))
  {}

  /** What is final stays so when the run is aborted. */
  lemma ReplyStaysFinal(t: Stream, aborted: bool, later: bool, m: AgentMessage)
    requires FinalReply(t, aborted, m) && (aborted ==> later)
    ensures FinalReply(t, later, m)
  {}

  lemma StepNeedsCall(s: Setup, p: Protocol, k: nat, step: CallStep)
    requires InBatch(p) && AcceptStep(s, p, k, step)
    ensures k < |p.logs|
  {}

  predicate AllFinished(entries: seq<Entry>) {
    forall i | 0 <= i < |entries| :: entries[i].Finished?
  }

  /** How many steps, apart from updates, the entries still have to take. */
  ghost function StepsLeft(entries: seq<Entry>): nat {
    if entries == [] then 0
    else
      (match entries[0] case NotStarted => 3 case Executing(_) => 2 case Settled(_) => 1 case Finished(_) => 0)
      + StepsLeft(entries[1..])
  }

  lemma {:induction false} StepsLeftUpdate(entries: seq<Entry>, i: nat, e: Entry)
    requires i < |entries|
    ensures StepsLeft(entries[i := e]) - StepsLeft([e]) == StepsLeft(entries) - StepsLeft([entries[i]])
  {
    if i == 0 {
      assert entries[i := e][1..] == entries[1..];
    } else {
      assert entries[i := e][1..] == entries[1..][i - 1 := e];
      StepsLeftUpdate(entries[1..], i - 1, e);
    }
  }

  lemma Recorded(s: Setup, view: AgentView, trace: seq<Obs>, o: Obs)
    ensures Run(s, trace + [o]) == Next(Run(s, trace), o)
    ensures Legal(s, trace + [o]) <==> Legal(s, trace) && Accept(s, Run(s, trace), o)
    ensures Observed(view, trace + [o]) == ReduceObs(Observed(view, trace), o)
    ensures forall source :: PolledFrom(trace + [o], source) ==
              PolledFrom(trace, source) + if o.Polled? && o.source == source then o.batch else []
    ensures forall source :: WithdrawnFrom(trace + [o], source) ==
              WithdrawnFrom(trace, source) + if o.Withdrawn? && o.source == source then o.messages else []
    ensures Excused(s, trace + [o]) <==>
              Excused(s, trace) || (Legal(s, trace) && Breach(Run(s, trace), o))
    ensures forall source, history ::
              WholeBatches(trace, source, history) && !(o.Polled? && o.source == source)
              ==> WholeBatches(trace + [o], source, history)
    ensures forall skips :: SkipsFit(trace, skips) && (o.Polled? ==> o.source.Continuation? && !o.skipped) ==>
              SkipsFit(trace + [o], skips)
    ensures SteeringPolled(trace + [o]) <==> SteeringPolled(trace) || (o.Polled? && o.source.Steering?)
    ensures forall error :: ThrownIn(trace + [o], error) <==>
              ThrownIn(trace, error) || ((o.HookThrew? || o.ListenerRejected?) && o.error == error)
  {
    hide Accept, Next, Breach;
    assert (trace + [o])[..|trace|] == trace;
    assert forall x :: x in trace + [o] <==> x in trace || x == o;
  }

  lemma StaysTold(p: Protocol, o: Obs)
    ensures p.untold.None? && (o.CallObserved? ==> !o.callStep.UpdateGiven?) ==> Next(p, o).untold.None?
  {}

  /**
   * What a drain has taken from its queue: nothing if it was skipped; one batch as it was enqueued, or
   * everything, by the queue's mode; and it is empty-handed otherwise only if nothing waits.
   */
  ghost predicate TookWhole(queue: PendingMessageQueue, batch: seq<AgentMessage>, skipped: bool)
    reads queue
  {
    && (skipped ==> batch == [])
    && (queue.mode == OneAtATime ==> batch == [] || batch in queue.history)
    && (!skipped && (batch == [] || queue.mode == All) ==> queue.batches == [])
  }

  /** A poll enters the trace behind what others had withdrawn from the queues. */
  function WithPoll(trace: seq<Obs>, fromSteering: seq<AgentMessage>, fromFollowUp: seq<AgentMessage>, poll: Obs)
    : (longer: seq<Obs>)
    ensures |longer| > |trace| && longer[|longer| - 1] == poll
  {
    trace + [Withdrawn(Steering, fromSteering)] + [Withdrawn(FollowUp, fromFollowUp)] + [poll]
  }

  lemma PollRecorded(s: Setup, view: AgentView, trace: seq<Obs>, fromSteering: seq<AgentMessage>,
                     fromFollowUp: seq<AgentMessage>, poll: Obs)
    requires poll.Polled? && !poll.source.Continuation?
    ensures var longer, p := WithPoll(trace, fromSteering, fromFollowUp, poll), Run(s, trace);
            && Run(s, longer) == p.(owed := p.owed + poll.batch, lastPoll := Some(poll.source), asked := [])
            && (Legal(s, longer) <==> Legal(s, trace) && AcceptPoll(p, poll.source))
            && (Excused(s, trace) ==> Excused(s, longer)) && Observed(view, longer) == Observed(view, trace)
            && PolledFrom(longer, Steering) ==
               PolledFrom(trace, Steering) + (if poll.source.Steering? then poll.batch else [])
            && PolledFrom(longer, FollowUp) ==
               PolledFrom(trace, FollowUp) + (if poll.source.FollowUp? then poll.batch else [])
            && WithdrawnFrom(longer, Steering) == WithdrawnFrom(trace, Steering) + fromSteering
            && WithdrawnFrom(longer, FollowUp) == WithdrawnFrom(trace, FollowUp) + fromFollowUp
  {
    hide Run, Legal, Excused, WithdrawnFrom, ThrownIn, Observed, PolledFrom, AcceptPoll, WholeBatches;
    var first := trace + [Withdrawn(Steering, fromSteering)];
    var second := first + [Withdrawn(FollowUp, fromFollowUp)];
    Recorded(s, view, trace, Withdrawn(Steering, fromSteering));
    Recorded(s, view, first, Withdrawn(FollowUp, fromFollowUp));
    Recorded(s, view, second, poll);
  }

  lemma WholeBatchDrained(mode: QueueMode, waiting: seq<seq<AgentMessage>>, history: seq<seq<AgentMessage>>)
    requires forall batch <- waiting :: batch != [] && batch in history
    ensures mode == OneAtATime ==> HandsOut(mode, waiting) == [] || HandsOut(mode, waiting) in history
    ensures HandsOut(mode, waiting) == [] <==> waiting == []
    ensures mode == All || waiting == [] ==> LeftWaiting(mode, waiting) == []
  {
    NothingWaits(waiting);
    if waiting != [] {
      assert waiting[0] in waiting;
    }
  }

  lemma WholeBatchesGrow(trace: seq<Obs>, fromSteering: seq<AgentMessage>, fromFollowUp: seq<AgentMessage>, poll: Obs,
                         steering: seq<seq<AgentMessage>>, followUp: seq<seq<AgentMessage>>,
                         steeringNow: seq<seq<AgentMessage>>, followUpNow: seq<seq<AgentMessage>>)
    requires WholeBatches(trace, Steering, steering) && WholeBatches(trace, FollowUp, followUp)
    requires steering <= steeringNow && followUp <= followUpNow && poll.Polled?
    requires poll.queueMode == OneAtATime ==>
               poll.batch == [] || poll.batch in (if poll.source.Steering? then steeringNow else followUpNow)
    ensures var longer := WithPoll(trace, fromSteering, fromFollowUp, poll);
            WholeBatches(longer, Steering, steeringNow) && WholeBatches(longer, FollowUp, followUpNow)
  {
    assert forall batch <- steering :: batch in steeringNow;
    assert forall batch <- followUp :: batch in followUpNow;
  }

  lemma SkipsMore(trace: seq<Obs>, fromSteering: seq<AgentMessage>, fromFollowUp: seq<AgentMessage>, poll: Obs,
                  skips: bool)
    requires SkipsFit(trace, skips) && poll.Polled?
    requires poll.skipped == (poll.source.Steering? && skips && !SteeringPolled(trace))
    requires poll.skipped ==> poll.batch == []
    ensures var longer := WithPoll(trace, fromSteering, fromFollowUp, poll);
            && SkipsFit(longer, skips)
            && (SteeringPolled(longer) <==> SteeringPolled(trace) || poll.source.Steering?)
  {
    hide SkipsFit, SteeringPolled;
    var first := trace + [Withdrawn(Steering, fromSteering)];
    var second := first + [Withdrawn(FollowUp, fromFollowUp)];
    SkipsStep(trace, Withdrawn(Steering, fromSteering), skips);
    SkipsStep(first, Withdrawn(FollowUp, fromFollowUp), skips);
    SkipsStep(second, poll, skips);
  }

  lemma SkipsStep(trace: seq<Obs>, o: Obs, skips: bool)
    ensures SteeringPolled(trace + [o]) <==> SteeringPolled(trace) || (o.Polled? && o.source.Steering?)
    ensures && SkipsFit(trace, skips)
            && (o.Polled? ==>
                  && o.skipped == (o.source.Steering? && skips && !SteeringPolled(trace))
                  && (o.skipped ==> o.batch == [])) ==>
              SkipsFit(trace + [o], skips)
  {
    assert (trace + [o])[..|trace|] == trace;
    assert o in trace + [o];
  }

  class Loop {
    const agent: Agent
    const signal: ActiveRun
    ghost const setup: Setup
    const tools: seq<Tool>
    const toolExecution: ToolExecutionMode
    const toolHooks: ToolHooks
    var context: seq<AgentMessage>
    var newMessages: seq<AgentMessage>
    var skipInitialSteeringPoll: bool

    ghost const skips: bool
    ghost const initialView: AgentView
    ghost const steeringTaken: seq<AgentMessage>
    ghost const followUpTaken: seq<AgentMessage>
    ghost const steeringDropped: seq<AgentMessage>
    ghost const followUpDropped: seq<AgentMessage>
    ghost var trace: seq<Obs>
    /** Set when a stream or a listener broke its contract; the trace shows where (`Excused`). */
    ghost var offContract: bool

    ghost function P(): Protocol
      reads this
    {
      Run(setup, trace)
    }

    ghost predicate Valid()
      reads this, agent, agent.steeringQueue, agent.followUpQueue, signal
    {
      && agent.activeRun == signal && setup.tools == tools && setup.mode == toolExecution && setup.hooks == toolHooks
      && AgentFollows() && QueuesFollow()
      && P().aborted == signal.aborted && P().untold.None?
      && (!offContract ==> Legal(setup, trace))
      && (offContract ==> Excused(setup, trace))
    }

    /** `Valid` but for an update that listeners are yet to be told of. */
    ghost predicate ValidBut(untold: Option<Untold>)
      reads this, agent, agent.steeringQueue, agent.followUpQueue, signal
    {
      && agent.activeRun == signal && setup.tools == tools && setup.mode == toolExecution && setup.hooks == toolHooks
      && AgentFollows() && QueuesFollow() && P().aborted == signal.aborted && P().untold == untold
      && (if offContract then Excused(setup, trace) else Legal(setup, trace))
    }

    /** `Valid` while a poll is taken: what others and the poll did to the queues is not in the trace yet. */
    ghost predicate ValidButForQueues()
      reads this, agent, signal
    {
      && agent.activeRun == signal && setup.tools == tools && setup.mode == toolExecution && setup.hooks == toolHooks
      && AgentFollows() && P().aborted == signal.aborted && P().untold.None?
      && (if offContract then Excused(setup, trace) else Legal(setup, trace))
    }

    /** The agent has rebuilt its state from the events of the trace. */
    ghost predicate AgentFollows()
      reads this`trace, agent`messages, agent`streamingMessage, agent`pendingToolCalls, agent`errorMessage
    {
      agent.View() == Observed(initialView, trace)
    }

    /** The queues have given up what was polled and lost what was withdrawn. */
    ghost predicate QueuesFollow()
      reads this`trace, this`skipInitialSteeringPoll, agent.steeringQueue, agent.followUpQueue
    {
      && agent.steeringQueue != agent.followUpQueue
      && agent.steeringQueue.Valid() && agent.followUpQueue.Valid()
      && agent.steeringQueue.taken == steeringTaken + PolledFrom(trace, Steering)
      && agent.followUpQueue.taken == followUpTaken + PolledFrom(trace, FollowUp)
      && agent.steeringQueue.dropped == steeringDropped + WithdrawnFrom(trace, Steering)
      && agent.followUpQueue.dropped == followUpDropped + WithdrawnFrom(trace, FollowUp)
      && WholeBatches(trace, Steering, agent.steeringQueue.history)
      && WholeBatches(trace, FollowUp, agent.followUpQueue.history)
      && SkipsFit(trace, skips) && skipInitialSteeringPoll == (skips && !SteeringPolled(trace))
    }

    /** A run is left by an exception only if it was aborted or something it called threw that. */
    ghost predicate MayThrow(error: Failure)
      reads this, signal
    {
      (signal.aborted && error == ABORT_ERROR) || ThrownIn(trace, error)
    }

    /** The private context and `newMessages` are what the closed message brackets say. */
    ghost predicate Synced()
      reads this
    {
      context == setup.base + Spoken(P()) && newMessages == Spoken(P())
    }

    constructor (agent: Agent, signal: ActiveRun, prompts: seq<AgentMessage>, skipInitialSteeringPoll: bool)
      requires agent.Valid() && agent.activeRun == signal && !signal.aborted
      ensures Valid() && this.agent == agent && this.signal == signal
      ensures trace == [] && !offContract
      ensures setup == Setup(agent.messages, prompts, agent.toolExecution, agent.tools, agent.toolHooks)
      ensures initialView == agent.View()
      ensures steeringTaken == agent.steeringQueue.taken && followUpTaken == agent.followUpQueue.taken
      ensures steeringDropped == agent.steeringQueue.dropped && followUpDropped == agent.followUpQueue.dropped
      ensures context == agent.messages + prompts && newMessages == prompts
      ensures this.skipInitialSteeringPoll == skips == skipInitialSteeringPoll
    {
      this.agent, this.signal := agent, signal;
      setup := Setup(agent.messages, prompts, agent.toolExecution, agent.tools, agent.toolHooks);
      tools, toolExecution, toolHooks := agent.tools, agent.toolExecution, agent.toolHooks;
      context, newMessages := agent.messages + prompts, prompts;
      this.skipInitialSteeringPoll, skips := skipInitialSteeringPoll, skipInitialSteeringPoll;
      initialView := agent.View();
      steeringTaken, followUpTaken := agent.steeringQueue.taken, agent.followUpQueue.taken;
      steeringDropped, followUpDropped := agent.steeringQueue.dropped, agent.followUpQueue.dropped;
      trace, offContract := [], false;
    }

    // -------------------------------------------------------------- awaiting

    /** A point where other code runs: the abort signal may flip, never back. */
    method Yield()
      requires Valid()
      modifies this`trace, signal`aborted
      ensures Valid() && (old(signal.aborted) ==> signal.aborted)
      ensures old(trace) <= trace
      ensures !offContract ==> P() == old(P()).(aborted := signal.aborted)
    {
      hide Run, Legal, Excused, WithdrawnFrom, ThrownIn;
      hide Observed, PolledFrom, Flatten, Reduce, Transcript, AcceptPoll;
      var flips: bool :| true;
      if flips && !signal.aborted {
        signal.aborted := true;
        Recorded(setup, initialView, trace, AbortSignalled);
        trace := trace + [AbortSignalled];
      }
    }

    /** `raceWithAbort`: interrupted at once under an aborted signal, possibly when it flips meanwhile. */
    method RaceWithAbort() returns (interrupted: bool)
      requires Valid()
      modifies this`trace, signal`aborted
      ensures Valid() && (old(signal.aborted) ==> signal.aborted)
      ensures old(trace) <= trace
      ensures !offContract ==> P() == old(P()).(aborted := signal.aborted)
      ensures interrupted ==> signal.aborted
      ensures old(signal.aborted) ==> interrupted
    {
      hide Run, Legal, Excused, WithdrawnFrom, ThrownIn;
      hide Observed, PolledFrom, AgentFollows, QueuesFollow, Flatten, Accept, Next, Reduce, Transcript, Spoken;
      if signal.aborted {
        return true;
      }
      Yield();
      var abortFirst: bool :| true;
      interrupted := abortFirst && signal.aborted;
    }

    /** An awaited hook whose answer the loop does not look at. */
    method AwaitHook() returns (r: Awaited<()>)
      requires Valid()
      requires !offContract ==> !P().dead
      modifies this`trace, signal`aborted
      ensures Valid() && (old(signal.aborted) ==> signal.aborted)
      ensures old(trace) <= trace
      ensures r.Threw? ==> MayThrow(r.error)
      ensures !offContract ==> ThrewOrNot(old(P()), r.Threw?, if r.Threw? then r.error.abortLike else false)
    {
      hide Run, Legal, Excused, WithdrawnFrom, ThrownIn;
      hide Observed, PolledFrom, AgentFollows, QueuesFollow, Flatten, Accept, Next, Reduce, Transcript, Spoken;
      var interrupted := RaceWithAbort();
      if interrupted {
        return Threw(ABORT_ERROR);
      }
      var throws: Option<Failure> :| true;
      if throws.Some? {
        RecordThrow(throws.value);
        return Threw(throws.value);
      }
      return Done(());
    }

    /**
     * The protocol has moved on by nothing but the abort signal; a throw leaves the run dead, unless it is an
     * abort error in an aborted run.
     */
    ghost predicate ThrewOrNot(before: Protocol, threw: bool, abortLike: bool)
      reads this, signal
    {
      && P() == before.(aborted := signal.aborted, dead := P().dead)
      && (!threw || (abortLike && signal.aborted) ==> P().dead == before.dead)
    }

    /** One more observation, which touches neither the agent's state nor its queues. */
    ghost method Record(o: Obs)
      requires Valid() && !o.Emitted? && !o.ToolEmitted? && !o.Withdrawn? && !o.AbortSignalled?
      requires o.CallObserved? ==> !o.callStep.UpdateGiven?
      requires o.Polled? ==> o.source.Continuation? && !o.skipped
      requires !offContract ==> Accept(setup, P(), o)
      modifies this`trace
      ensures Valid() && old(trace) <= trace && trace == old(trace) + [o]
      ensures !offContract ==> P() == Next(old(P()), o)
      ensures forall error :: old(ThrownIn(trace, error)) ==> ThrownIn(trace, error)
      ensures o.ListenerRejected? || o.HookThrew? ==> ThrownIn(trace, o.error)
    {
      hide Run, Legal, Excused, WithdrawnFrom, ThrownIn;
      hide Observed, PolledFrom, Accept, Next, Accounted;
      Recorded(setup, initialView, trace, o);
      StaysTold(P(), o);
      trace := trace + [o];
    }

    ghost method RecordThrow(error: Failure)
      requires Valid()
      modifies this`trace
      ensures Valid() && old(trace) <= trace && ThrownIn(trace, error)
      ensures !offContract ==> P() == old(P()).(dead := P().dead)
      ensures !offContract && error.abortLike && signal.aborted ==> P() == old(P())
    {
      hide Run, Legal, Excused, WithdrawnFrom, ThrownIn;
      hide Observed, PolledFrom, Accounted;
      Record(HookThrew(error));
    }

    /** One more step of the k-th call. */
    ghost method RecordStep(k: nat, step: CallStep)
      requires Valid()
      requires !offContract ==> InBatch(P()) && AcceptStep(setup, P(), k, step)
      requires !step.UpdateGiven?
      modifies this`trace
      ensures Valid() && old(trace) <= trace
      ensures !offContract ==>
                && k < |old(P()).logs|
                && P() == old(P()).(logs := old(P()).logs[k := NextLog(old(P()).logs[k], step)])
    {
      hide Run, Legal, Excused, WithdrawnFrom, ThrownIn;
      hide Observed, PolledFrom, AgentFollows, QueuesFollow, NextLog;
      Record(CallObserved(k, step));
      if !offContract {
        StepNeedsCall(setup, old(P()), k, step);
      }
    }

    /** Something that breaks a contract: from here on the loop promises no more than the trace shows. */
    ghost method RecordBreach(o: Obs)
      requires Valid() && !o.Emitted? && !o.ToolEmitted? && !o.Polled? && !o.Withdrawn? && !o.AbortSignalled?
      requires !o.CallObserved? && !offContract && Breach(P(), o)
      modifies this`trace, this`offContract
      ensures Valid() && old(trace) <= trace && offContract
      ensures o.ListenerRejected? ==> ThrownIn(trace, o.error)
    {
      hide Run, Legal, Excused, WithdrawnFrom, ThrownIn;
      hide Observed, PolledFrom, Next;
      Recorded(setup, initialView, trace, o);
      StaysTold(P(), o);
      trace := trace + [o];
      offContract := true;
    }

    /** `processEvents`: reduce the agent's state, then await its listeners, any of which may throw. */
    method Emit(o: Obs) returns (r: Awaited<()>)
      requires Valid()
      requires o.Emitted? || o.ToolEmitted?
      requires !offContract ==> Accept(setup, P(), o) && !Responding(Next(P(), o))
      modifies this`trace, signal`aborted
      modifies agent`messages, agent`streamingMessage, agent`pendingToolCalls, agent`errorMessage
      ensures Valid() && (old(signal.aborted) ==> signal.aborted)
      ensures old(trace) <= trace
      ensures r.Threw? ==> MayThrow(r.error)
      ensures r.Done? && !offContract ==> P() == Next(old(P()), o).(aborted := signal.aborted)
    {
      hide Run, Legal, Excused, WithdrawnFrom, ThrownIn;
      hide Observed, PolledFrom, AgentFollows, QueuesFollow;
      r := Deliver(o);
      if r.Threw? {
        Record(ListenerRejected(r.error));
      }
    }

    /**
     * The same while a response is delivered, where a listener can break its contract: it does if it rejects
     * with an abort error in an aborted run.
     */
    method EmitResponse(o: Obs) returns (r: Awaited<()>)
      requires Valid()
      requires o.Emitted?
      requires !offContract ==> Accept(setup, P(), o)
      modifies this`trace, this`offContract, signal`aborted
      modifies agent`messages, agent`streamingMessage, agent`pendingToolCalls, agent`errorMessage
      ensures Valid() && (old(signal.aborted) ==> signal.aborted) && (old(offContract) ==> offContract)
      ensures old(trace) <= trace
      ensures r.Threw? ==> MayThrow(r.error)
      ensures !offContract ==> P() == Next(old(P()), o).(aborted := signal.aborted, dead := r.Threw?)
      ensures r.Threw? && r.error.abortLike && signal.aborted && !offContract ==> !Responding(P())
    {
      hide Run, Legal, Excused, WithdrawnFrom, ThrownIn;
      hide Observed, PolledFrom, AgentFollows, QueuesFollow;
      r := Deliver(o);
      if !offContract {
        EventsAreNotFatal(setup, old(P()), o);
      }
      if r.Threw? {
        RejectionIsRefusedOrFatal(setup, P(), r.error);
        if !offContract && Breach(P(), ListenerRejected(r.error)) {
          RecordBreach(ListenerRejected(r.error));
        } else {
          Record(ListenerRejected(r.error));
        }
      }
    }

    method Deliver(o: Obs) returns (r: Awaited<()>)
      requires Valid()
      requires o.Emitted? || o.ToolEmitted?
      requires !offContract ==> Accept(setup, P(), o)
      modifies this`trace, signal`aborted
      modifies agent`messages, agent`streamingMessage, agent`pendingToolCalls, agent`errorMessage
      ensures Valid() && (old(signal.aborted) ==> signal.aborted)
      ensures old(trace) <= trace
      ensures !offContract ==> P() == Next(old(P()), o).(aborted := signal.aborted)
    {
      hide Run, Legal, Excused, WithdrawnFrom, ThrownIn;
      hide Observed, PolledFrom, AgentFollows, QueuesFollow;
      hide Accept, Next;
      ReduceState(o);
      r := Notify();
    }

    /** Listeners are awaited, any of which may throw. */
    method Notify() returns (r: Awaited<()>)
      requires Valid()
      modifies this`trace, signal`aborted
      ensures Valid() && (old(signal.aborted) ==> signal.aborted)
      ensures old(trace) <= trace
      ensures !offContract ==> P() == old(P()).(aborted := signal.aborted)
    {
      hide Run, Legal, Excused, WithdrawnFrom, ThrownIn;
      hide Observed, PolledFrom, AgentFollows, QueuesFollow;
      Yield();
      var listenerThrows: Option<Failure> :| true;
      return if listenerThrows.Some? then Threw(listenerThrows.value) else Done(());
    }

    /** The event enters the trace as the agent's state takes it in. */
    method ReduceState(o: Obs)
      requires Valid()
      requires o.Emitted? || o.ToolEmitted?
      requires !offContract ==> Accept(setup, P(), o)
      modifies this`trace
      modifies agent`messages, agent`streamingMessage, agent`pendingToolCalls, agent`errorMessage
      ensures Valid() && old(trace) <= trace
      ensures !offContract ==> P() == Next(old(P()), o)
    {
      hide Run, Legal, Excused, WithdrawnFrom, ThrownIn;
      hide Observed, PolledFrom;
      hide Accept, Next, Reduce, Accounted, Flatten, WholeBatches, SkipsFit, SteeringPolled;
      agent.ApplyEvent(o.event);
      Recorded(setup, initialView, trace, o);
      StaysTold(P(), o);
      trace := trace + [o];
    }

    // -------------------------------------------------------------- polling

    /**
     * `steer`, `followUp`, the mode setters, and the methods that take queued messages back may run at
     * any await; only a drain can tell when.
     */
    method OthersQueue(queue: PendingMessageQueue) returns (ghost withdrawn: seq<AgentMessage>)
      requires queue.Valid()
      modifies queue
      ensures queue.Valid() && queue.taken == old(queue.taken) && old(queue.accepted) <= queue.accepted
      ensures old(queue.history) <= queue.history
      ensures queue.dropped == old(queue.dropped) + withdrawn
    {
      hide Accounted, Flatten;
      withdrawn := [];
      assert queue.dropped + [] == queue.dropped;
      var actions: nat :| true;
      for i := 0 to actions
        invariant queue.Valid() && queue.taken == old(queue.taken) && old(queue.accepted) <= queue.accepted
        invariant queue.dropped == old(queue.dropped) + withdrawn && old(queue.history) <= queue.history
      {
        ghost var before := queue.dropped;
        var batch: seq<AgentMessage> :| true;
        var clears: bool :| true;
        var removes: Option<AgentMessage -> bool> :| true;
        if clears {
          queue.Clear();
        } else if removes.Some? {
          var _ := queue.RemoveWhere(removes.value);
        } else {
          queue.Enqueue(batch);
        }
        withdrawn := withdrawn + queue.dropped[|before|..];
      }
      var newMode: QueueMode :| true;
      queue.mode := newMode;
    }

    function QueueOf(source: Source): PendingMessageQueue {
      if source.Steering? then agent.steeringQueue else agent.followUpQueue
    }

    /** What the agent's `getSteeringMessages` and `getFollowUpMessages` drain: one queue, once, in its mode. */
    method DrainSource(source: Source) returns (batch: seq<AgentMessage>)
      requires agent.Valid() && !source.Continuation?
      modifies this`skipInitialSteeringPoll, QueueOf(source)
      ensures agent.Valid()
      ensures skipInitialSteeringPoll == (old(skipInitialSteeringPoll) && !source.Steering?)
      ensures var queue, skips := QueueOf(source), source.Steering? && old(skipInitialSteeringPoll);
              && queue.mode == old(queue.mode) && queue.taken == old(queue.taken) + batch
              && queue.accepted == old(queue.accepted) && queue.history == old(queue.history)
              && queue.dropped == old(queue.dropped)
              && batch == (if skips then [] else HandsOut(queue.mode, old(queue.batches)))
              && queue.batches == (if skips then old(queue.batches) else LeftWaiting(queue.mode, old(queue.batches)))
    {
      hide Accounted, Flatten;
      if source.Steering? && skipInitialSteeringPoll {
        skipInitialSteeringPoll := false;
        batch := [];
      } else if source.Steering? {
        batch := agent.steeringQueue.Drain();
      } else {
        batch := agent.followUpQueue.Drain();
      }
    }

    /** What others did to the queues until now, and then the drain. */
    method TakeBatch(source: Source)
      returns (batch: seq<AgentMessage>, ghost fromSteering: seq<AgentMessage>, ghost fromFollowUp: seq<AgentMessage>)
      requires agent.Valid() && !source.Continuation?
      modifies this`skipInitialSteeringPoll, agent.steeringQueue, agent.followUpQueue
      ensures agent.Valid()
      ensures skipInitialSteeringPoll == (old(skipInitialSteeringPoll) && !source.Steering?)
      ensures agent.steeringQueue.taken == old(agent.steeringQueue.taken) + (if source.Steering? then batch else [])
      ensures agent.followUpQueue.taken == old(agent.followUpQueue.taken) + (if source.FollowUp? then batch else [])
      ensures agent.steeringQueue.dropped == old(agent.steeringQueue.dropped) + fromSteering
      ensures agent.followUpQueue.dropped == old(agent.followUpQueue.dropped) + fromFollowUp
      ensures old(agent.steeringQueue.accepted) <= agent.steeringQueue.accepted
      ensures old(agent.followUpQueue.accepted) <= agent.followUpQueue.accepted
      ensures old(agent.steeringQueue.history) <= agent.steeringQueue.history
      ensures old(agent.followUpQueue.history) <= agent.followUpQueue.history
      ensures TookWhole(QueueOf(source), batch, source.Steering? && old(skipInitialSteeringPoll))
    {
      hide Accounted, Flatten, HandsOut, LeftWaiting;
      fromSteering := OthersQueue(agent.steeringQueue);
      fromFollowUp := OthersQueue(agent.followUpQueue);
      ghost var waiting := QueueOf(source).batches;
      batch := DrainSource(source);
      WholeBatchDrained(QueueOf(source).mode, waiting, QueueOf(source).history);
    }

    /**
     * The drain of a poll, and what others did to the queues before it. A one-at-a-time poll takes
     * nothing or one batch exactly as it was enqueued, the other kind takes all there is; and a poll that
     * is not skipped comes back empty only from an empty queue.
     */
    method PollQueue(source: Source) returns (batch: seq<AgentMessage>)
      requires Valid() && !source.Continuation?
      requires !offContract ==> AcceptPoll(P(), source)
      modifies this`trace, this`skipInitialSteeringPoll, agent.steeringQueue, agent.followUpQueue
      ensures Valid()
      ensures !offContract ==> P() == old(P()).(owed := old(P()).owed + batch, lastPoll := Some(source), asked := [])
      ensures old(agent.steeringQueue.accepted) <= agent.steeringQueue.accepted
      ensures old(agent.followUpQueue.accepted) <= agent.followUpQueue.accepted
      ensures |trace| > 0
      ensures trace[|trace| - 1] ==
              Polled(source, QueueOf(source).mode, batch, source.Steering? && old(skipInitialSteeringPoll))
      ensures TookWhole(QueueOf(source), batch, source.Steering? && old(skipInitialSteeringPoll))
    {
      hide Run, Legal, Excused, WithdrawnFrom, ThrownIn, Observed, PolledFrom, Flatten, Reduce, Transcript;
      hide AcceptPoll, Accounted, WholeBatches, WithPoll, Accept, Next, SkipsFit, SteeringPolled;
      ghost var steeringHistory, followUpHistory := agent.steeringQueue.history, agent.followUpQueue.history;
      ghost var fromSteering, fromFollowUp;
      ghost var skipped := source.Steering? && skipInitialSteeringPoll;
      batch, fromSteering, fromFollowUp := TakeBatch(source);
      ghost var poll := Polled(source, QueueOf(source).mode, batch, skipped);
      SkipsMore(trace, fromSteering, fromFollowUp, poll, skips);
      WholeBatchesGrow(trace, fromSteering, fromFollowUp, poll, steeringHistory, followUpHistory,
                       agent.steeringQueue.history, agent.followUpQueue.history);
      RecordPoll(fromSteering, fromFollowUp, poll);
    }

    ghost method RecordPoll(fromSteering: seq<AgentMessage>, fromFollowUp: seq<AgentMessage>, poll: Obs)
      requires ValidButForQueues() && poll.Polled? && !poll.source.Continuation?
      requires !offContract ==> AcceptPoll(P(), poll.source)
      modifies this`trace
      ensures ValidButForQueues() && trace == WithPoll(old(trace), fromSteering, fromFollowUp, poll)
      ensures !offContract ==>
                P() == old(P()).(owed := old(P()).owed + poll.batch, lastPoll := Some(poll.source), asked := [])
      ensures PolledFrom(trace, Steering) ==
              PolledFrom(old(trace), Steering) + (if poll.source.Steering? then poll.batch else [])
      ensures PolledFrom(trace, FollowUp) ==
              PolledFrom(old(trace), FollowUp) + (if poll.source.FollowUp? then poll.batch else [])
      ensures WithdrawnFrom(trace, Steering) == WithdrawnFrom(old(trace), Steering) + fromSteering
      ensures WithdrawnFrom(trace, FollowUp) == WithdrawnFrom(old(trace), FollowUp) + fromFollowUp
    {
      hide Run, Legal, Excused, WithdrawnFrom, ThrownIn, Observed, PolledFrom, Flatten, Reduce, Transcript;
      hide AcceptPoll, WithPoll, Accept, Next;
      PollRecorded(setup, initialView, trace, fromSteering, fromFollowUp, poll);
      trace := WithPoll(trace, fromSteering, fromFollowUp, poll);
    }

    /** `pollMessagesUnlessAborted`: the drain happens before the race, so an abort can lose the batch. */
    method PollMessagesUnlessAborted(source: Source) returns (r: Awaited<seq<AgentMessage>>)
      requires Valid() && !source.Continuation?
      requires !offContract ==> (signal.aborted || AcceptPoll(P(), source))
      modifies this`trace, this`skipInitialSteeringPoll, agent.steeringQueue, agent.followUpQueue, signal`aborted
      ensures Valid() && (old(signal.aborted) ==> signal.aborted)
      ensures r.Threw? ==> MayThrow(r.error)
      ensures !offContract && old(signal.aborted) ==> r == Done([]) && P() == old(P())
      ensures !offContract && !old(signal.aborted) ==>
                exists batch :: (r.Done? ==> r.value == batch)
                  && P() == old(P()).(owed := old(P()).owed + batch, lastPoll := Some(source), asked := [],
                                      aborted := signal.aborted)
      ensures old(agent.steeringQueue.accepted) <= agent.steeringQueue.accepted
      ensures old(agent.followUpQueue.accepted) <= agent.followUpQueue.accepted
    {
      hide Run, Legal, Excused, WithdrawnFrom, ThrownIn;
      hide Observed, PolledFrom, AgentFollows, QueuesFollow;
      hide Flatten, Reduce, Transcript, AcceptPoll, Next;
      if signal.aborted {
        return Done([]);
      }
      var batch := PollQueue(source);
      var interrupted := RaceWithAbort();
      return if interrupted then Threw(ABORT_ERROR) else Done(batch);
    }

    /** What the continuation hook answers; its messages are owed as soon as it has. */
    method AskContinuation() returns (answer: Awaited<seq<AgentMessage>>)
      requires Valid()
      requires !offContract ==> AcceptPoll(P(), Continuation)
      modifies this`trace
      ensures Valid()
      ensures answer.Done? && !offContract ==>
                P() == old(P()).(owed := old(P()).owed + answer.value, lastPoll := Some(Continuation), asked := [])
      ensures answer.Threw? ==> trace == old(trace)
    {
      hide Run, Legal, Excused, WithdrawnFrom, ThrownIn;
      hide Observed, PolledFrom, AgentFollows, QueuesFollow;
      answer :| true;
      if answer.Done? {
        Record(Polled(Continuation, All, answer.value, false));
      }
    }

    /** The continuation hook is called even under an aborted signal; its answer then loses the race. */
    method PollContinuation() returns (r: Awaited<seq<AgentMessage>>)
      requires Valid()
      requires !offContract ==> AcceptPoll(P(), Continuation) && !P().dead
      modifies this`trace, signal`aborted
      ensures Valid() && (old(signal.aborted) ==> signal.aborted)
      ensures r.Threw? ==> MayThrow(r.error)
      ensures !offContract && r.Done? ==>
                P() == old(P()).(owed := old(P()).owed + r.value, lastPoll := Some(Continuation), asked := [],
                                 aborted := signal.aborted)
      ensures !offContract && r.Threw? ==>
                && P() == old(P()).(owed := P().owed, lastPoll := P().lastPoll, asked := P().asked,
                                    aborted := signal.aborted, dead := P().dead)
                && (signal.aborted && r.error.abortLike ==> !P().dead)
      ensures r.Done? ==> !old(signal.aborted)
    {
      hide Run, Legal, Excused, WithdrawnFrom, ThrownIn;
      hide Observed, PolledFrom, AgentFollows, QueuesFollow, AcceptPoll;
      var answer := AskContinuation();
      var interrupted := RaceWithAbort();
      if interrupted {
        return Threw(ABORT_ERROR);
      }
      if answer.Threw? {
        RecordThrow(answer.error);
      }
      return answer;
    }

    /** What a stop hook answers, or that it throws. */
    method AskStop(hook: StopHook) returns (r: Awaited<bool>)
      requires Valid()
      requires !offContract ==> Resting(P()) && P().owed == [] && !P().stopping && AcceptStop(P(), hook)
      modifies this`trace
      ensures Valid() && (r.Threw? ==> ThrownIn(trace, r.error))
      ensures !offContract && r.Done? ==> P() == old(P()).(stopping := r.value, asked := old(P()).asked + [hook])
      ensures !offContract && r.Threw? ==>
                P() == old(P()).(dead := P().dead) && (signal.aborted && r.error.abortLike ==> !P().dead)
    {
      hide Run, Legal, Excused, WithdrawnFrom, ThrownIn;
      hide Observed, PolledFrom, AgentFollows, QueuesFollow, Flatten, Reduce, Transcript, Spoken;
      r :| true;
      if r.Done? {
        Record(StopAnswered(hook, r.value));
      } else {
        RecordThrow(r.error);
      }
    }

    method ShouldStopAfterTurn() returns (r: Awaited<bool>)
      requires Valid()
      requires !offContract ==> Resting(P()) && P().owed == [] && !P().stopping && AcceptStop(P(), AfterTurnHook)
      modifies this`trace, signal`aborted
      ensures Valid() && (old(signal.aborted) ==> signal.aborted)
      ensures r.Threw? ==> MayThrow(r.error)
      ensures !offContract && r.Done? ==>
                P() == old(P()).(aborted := signal.aborted, stopping := r.value,
                                 asked := old(P()).asked + [AfterTurnHook])
      ensures !offContract && r.Threw? ==>
                && P() == old(P()).(aborted := signal.aborted, dead := P().dead)
                && (signal.aborted && r.error.abortLike ==> !P().dead)
    {
      hide Run, Legal, Excused, WithdrawnFrom, ThrownIn;
      hide Observed, PolledFrom, AgentFollows, QueuesFollow, Flatten, Accept, Next, Reduce, Transcript, Spoken;
      var interrupted := RaceWithAbort();
      if interrupted {
        return Threw(ABORT_ERROR);
      }
      r := AskStop(AfterTurnHook);
    }

    /** The synchronous hook; it may itself abort the run. */
    method ShouldStopBeforeTurn() returns (r: Awaited<bool>)
      requires Valid()
      requires !offContract ==> Resting(P()) && P().owed == [] && !P().stopping && AcceptStop(P(), BeforeTurnHook)
      modifies this`trace, signal`aborted
      ensures Valid() && (old(signal.aborted) ==> signal.aborted)
      ensures r.Threw? ==> MayThrow(r.error)
      ensures !offContract && r.Done? ==>
                P() == old(P()).(aborted := signal.aborted, stopping := r.value,
                                 asked := old(P()).asked + [BeforeTurnHook])
    {
      hide Run, Legal, Excused, WithdrawnFrom, ThrownIn;
      hide Observed, PolledFrom, AgentFollows, QueuesFollow, Flatten, Accept, Next, Reduce, Transcript, Spoken;
      Yield();
      r := AskStop(BeforeTurnHook);
    }

    // -------------------------------------------------------------- one assistant response

    /** Transform and convert the context, and resolve the key. */
    method PrepareRequest() returns (r: Awaited<()>)
      requires Valid()
      requires !offContract ==> !P().dead
      modifies this`trace, signal`aborted
      ensures Valid() && (old(signal.aborted) ==> signal.aborted)
      ensures old(trace) <= trace
      ensures r.Threw? ==> MayThrow(r.error)
      ensures !offContract ==> ThrewOrNot(old(P()), r.Threw?, if r.Threw? then r.error.abortLike else false)
    {
      hide Run, Legal, Excused, WithdrawnFrom, ThrownIn;
      hide Observed, PolledFrom, AgentFollows, QueuesFollow, Flatten, Accept, Next, Reduce, Transcript, Spoken;
      if signal.aborted {
        return Threw(ABORT_ERROR);
      }
      var hasTransform: bool :| true;
      if hasTransform {
        var _ :- AwaitHook();
      }
      var _ :- AwaitHook();
      var hasGetApiKey: bool :| true;
      if hasGetApiKey {
        r := AwaitHook();
      } else {
        r := Done(());
      }
    }

    /** The provider is called with the context as the request was prepared from it. */
    method RequestStream() returns (r: Awaited<()>)
      requires Valid()
      requires !offContract ==>
                 AwaitingResponse(P()) && SteeringAsked(P()) && !P().called && context == setup.base + Spoken(P())
      modifies this`trace, signal`aborted
      ensures Valid() && (old(signal.aborted) ==> signal.aborted)
      ensures old(trace) <= trace
      ensures r.Threw? ==> MayThrow(r.error)
      ensures !offContract ==>
                ThrewOrNot(old(P()).(called := P().called), r.Threw?, if r.Threw? then r.error.abortLike else false)
      ensures r.Done? && !offContract ==> P().called
    {
      hide Run, Legal, Excused, WithdrawnFrom, ThrownIn;
      hide Observed, PolledFrom, AgentFollows, QueuesFollow, Flatten, Reduce, Transcript;
      var _ :- PrepareRequest();
      Record(ProviderCalled(context));
      r := AwaitHook();
    }

    /** What the stream delivers next, or that it throws; only finitely many partials come before the end. */
    method StreamAnswers(more: bool) returns (r: Awaited<StreamItem>)
      ensures r.Done? && !more ==> !r.value.StartItem? && !r.value.UpdateItem?
    {
      r :| true;
      if r.Done? && !more && (r.value.StartItem? || r.value.UpdateItem?) {
        r := Done(StreamExhausted);
      }
    }

    /** The next event of the stream; a second `start` breaks the stream's contract. */
    method NextStreamItem(more: bool) returns (r: Awaited<StreamItem>)
      requires Valid()
      requires !offContract ==> Reading(P()) && !P().stream.over
      modifies this`trace, this`offContract, signal`aborted
      ensures Valid() && (old(signal.aborted) ==> signal.aborted) && (old(offContract) ==> offContract)
      ensures old(trace) <= trace
      ensures r.Threw? ==> MayThrow(r.error)
      ensures !offContract && r.Done? ==>
                && P() == old(P()).(stream := NextStream(old(P()).stream, ItemSeen(r.value)), aborted := signal.aborted)
                && (r.value.StartItem? ==> old(P()).stream.partial.None?)
      ensures !offContract && r.Threw? ==> ThrewOrNot(old(P()), true, r.error.abortLike)
      ensures r.Done? && (r.value.StartItem? || r.value.UpdateItem?) ==> more
    {
      hide Run, Legal, Excused, WithdrawnFrom, ThrownIn;
      hide Observed, PolledFrom, AgentFollows, QueuesFollow, Flatten, Reduce, Transcript, Spoken, NextStream;
      var interrupted := RaceWithAbort();
      if interrupted {
        return Threw(ABORT_ERROR);
      }
      r := StreamAnswers(more);
      if r.Threw? {
        RecordThrow(r.error);
      } else if !offContract && r.value.StartItem? && P().stream.partial.Some? {
        RecordBreach(StreamObserved(ItemSeen(r.value)));
      } else {
        Record(StreamObserved(ItemSeen(r.value)));
      }
    }

    /** How awaiting the stream's result ends: with its own outcome, unless the abort comes first. */
    method SettleResult() returns (r: Awaited<AssistantReply>)
      requires Valid()
      requires !offContract ==> Reading(P()) && P().stream.over && P().stream.result.None?
      modifies this`trace, signal`aborted
      ensures Valid() && (old(signal.aborted) ==> signal.aborted)
      ensures old(trace) <= trace
      ensures r.Threw? ==> MayThrow(r.error)
      ensures old(signal.aborted) ==> r == Threw(ABORT_ERROR)
      ensures !offContract ==>
                && ThrewOrNot(old(P()).(stream := old(P()).stream.(result := Some(r))), r.Threw?,
                              if r.Threw? then r.error.abortLike else false)
    {
      hide Run, Legal, Excused, WithdrawnFrom, ThrownIn;
      hide Observed, PolledFrom, AgentFollows, QueuesFollow, Flatten, Reduce, Transcript, Spoken;
      var interrupted := RaceWithAbort();
      var resolved: Awaited<AssistantReply> :| true;
      r := if interrupted then Threw(ABORT_ERROR) else resolved;
      Record(StreamObserved(ResultSettled(r)));
      if !interrupted && r.Threw? {
        RecordThrow(r.error);
      }
    }

    /** `response.result()`: its own value, or the terminal event's message when the run was aborted. */
    method AwaitResult(terminal: Option<AssistantReply>) returns (r: Awaited<AssistantReply>)
      requires Valid()
      requires !offContract ==>
                 Reading(P()) && P().stream.over && P().stream.result.None? && P().stream.terminal == terminal
      modifies this`trace, signal`aborted
      ensures Valid() && (old(signal.aborted) ==> signal.aborted)
      ensures old(trace) <= trace
      ensures r.Threw? ==> MayThrow(r.error)
      ensures !offContract && r.Done? ==>
                && P() == old(P()).(stream := P().stream, aborted := signal.aborted)
                && KeepsStream(old(P()).stream, P().stream) && FinalReply(P().stream, P().aborted, r.value)
      ensures !offContract && r.Threw? ==>
                && ThrewOrNot(old(P()).(stream := P().stream), true, r.error.abortLike)
                && KeepsStream(old(P()).stream, P().stream)
                && (signal.aborted && r.error.abortLike ==>
                      FinalReply(P().stream, true, AbortedMessage(P().stream.partial)))
      ensures terminal.Some? && r.Threw? ==> !(signal.aborted && r.error.abortLike)
      ensures terminal.Some? && old(signal.aborted) ==> r == Done(terminal.value)
    {
      hide Run, Legal, Excused, WithdrawnFrom, ThrownIn;
      hide Observed, PolledFrom, AgentFollows, QueuesFollow, Flatten, Accept, Next, Reduce, Transcript, Spoken;
      r := SettleResult();
      if terminal.Some? && r.Threw? && signal.aborted && r.error.abortLike {
        r := Done(terminal.value);
      }
    }

    /** Nothing but its result has been learnt of the stream. */
    predicate KeepsStream(before: Stream, after: Stream) {
      after == before.(result := after.result)
    }

    /** The final message replaces the partial in the context, or joins it with a bracket of its own. */
    method FinishMessage(final: AssistantReply, addedPartial: bool) returns (r: Awaited<AssistantReply>)
      requires Valid() && (addedPartial ==> context != [])
      requires !offContract ==>
                 && P().status.InTurn? && |P().said| == |P().owed| && P().response.None? && P().batch.None? && !P().dead
                 && (P().open.Some? <==> addedPartial) && (P().stream.partial.Some? <==> addedPartial)
                 && AcceptReply(P(), final)
      modifies this`context, this`trace, this`offContract, signal`aborted
      modifies agent`messages, agent`streamingMessage, agent`pendingToolCalls, agent`errorMessage
      ensures Valid() && (old(signal.aborted) ==> signal.aborted) && (old(offContract) ==> offContract) && context != []
      ensures old(trace) <= trace
      ensures r.Threw? ==> MayThrow(r.error)
      ensures r.Done? ==> r.value == final
      ensures context == (if addedPartial then old(context)[..|old(context)| - 1] else old(context)) + [final]
      ensures r.Done? && !offContract ==>
                P() == old(P()).(open := None, response := Some(final), aborted := signal.aborted)
      ensures r.Threw? && !offContract && old(P()).called ==> !(signal.aborted && r.error.abortLike)
    {
      hide Run, Legal, Excused, WithdrawnFrom, ThrownIn;
      hide Observed, PolledFrom, AgentFollows, QueuesFollow, FinalReply;
      ghost var before := P();
      if addedPartial {
        context := context[..|context| - 1] + [final];
      } else {
        context := context + [final];
        var _ :- EmitResponse(Emitted(MessageStart(final)));
      }
      if !offContract {
        ReplyStaysFinal(before.stream, before.aborted, P().aborted, final);
      }
      var _ :- EmitResponse(Emitted(MessageEnd(final)));
      return Done(final);
    }

    /** A `start` or an update: the partial enters the context, or takes the place of the previous one. */
    method OnPartial(item: StreamItem, addedPartial: bool) returns (r: Awaited<()>)
      requires Valid() && (item.StartItem? || item.UpdateItem?)
      requires item.UpdateItem? ==> addedPartial
      requires addedPartial ==> context != []
      requires !offContract ==>
                 && P().status.InTurn? && |P().said| == |P().owed| && P().response.None? && Responding(P()) && !P().dead
                 && (P().open.Some? <==> addedPartial) && (addedPartial <==> item.UpdateItem?)
                 && P().stream.partial == Some(item.partial) && !P().stream.shown
      modifies this`context, this`trace, this`offContract, signal`aborted
      modifies agent`messages, agent`streamingMessage, agent`pendingToolCalls, agent`errorMessage
      ensures Valid() && (old(signal.aborted) ==> signal.aborted) && (old(offContract) ==> offContract) && context != []
      ensures old(trace) <= trace
      ensures r.Threw? ==> MayThrow(r.error)
      ensures context == (if item.UpdateItem? then old(context)[..|old(context)| - 1] else old(context))
              + [item.partial]
      ensures !offContract ==>
                P() == old(P()).(open := Some(item.partial), stream := old(P()).stream.(shown := true),
                                 aborted := signal.aborted, dead := r.Threw?)
      ensures r.Threw? && !offContract ==> !(signal.aborted && r.error.abortLike)
    {
      hide Run, Legal, Excused, WithdrawnFrom, ThrownIn;
      hide Observed, PolledFrom, AgentFollows, QueuesFollow;
      if item.StartItem? {
        context := context + [item.partial];
        r := EmitResponse(Emitted(MessageStart(item.partial)));
      } else {
        context := context[..|context| - 1] + [item.partial];
        r := EmitResponse(Emitted(MessageUpdate(item.partial)));
      }
    }

    /** A stream whose partials have all been shown, with the given one as the latest. */
    ghost predicate StreamAt(p: Protocol, partial: Option<AssistantReply>) {
      && !p.dead && p.status.InTurn? && |p.said| == |p.owed| && p.response.None? && Responding(p)
      && p.stream.shown && p.stream.partial == partial && (p.open.Some? <==> partial.Some?)
    }

    /** A stream that was left by an abort error in an aborted run: its response is the partial marked aborted. */
    ghost predicate CutShort(p: Protocol, partial: Option<AssistantReply>) {
      && !p.dead && p.aborted && p.stream.shown && p.stream.partial == partial && (p.open.Some? <==> partial.Some?)
      && FinalReply(p.stream, true, AbortedMessage(partial))
    }

    /** A terminal event, or a stream that ended early: the final message is awaited and closes the bracket. */
    method FinishStream(item: StreamItem, ghost partial: Option<AssistantReply>, addedPartial: bool)
      returns (r: Awaited<AssistantReply>, ghost listenerThrew: bool)
      requires Valid() && (item.TerminalItem? || item.StreamExhausted?)
      requires addedPartial == partial.Some? && (addedPartial ==> context != [])
      requires !offContract ==>
                 && StreamAt(P(), partial) && P().stream.over && P().stream.result.None?
                 && P().stream.terminal == if item.TerminalItem? then Some(item.message) else None
      modifies this`context, this`trace, this`offContract, signal`aborted
      modifies agent`messages, agent`streamingMessage, agent`pendingToolCalls, agent`errorMessage
      ensures Valid() && (old(signal.aborted) ==> signal.aborted) && (old(offContract) ==> offContract)
      ensures old(trace) <= trace
      ensures r.Threw? ==> MayThrow(r.error)
      ensures addedPartial ==> context != []
      ensures r.Done? ==>
              context == (if addedPartial then old(context)[..|old(context)| - 1] else old(context)) + [r.value]
      ensures r.Done? && !offContract ==>
                P() == old(P()).(open := None, stream := P().stream, response := Some(r.value),
                                 aborted := signal.aborted)
      ensures r.Threw? && !listenerThrew ==>
                && context == old(context)
                && (!offContract ==>
                      && P() == old(P()).(stream := P().stream, aborted := signal.aborted, dead := P().dead)
                      && (signal.aborted && r.error.abortLike ==> CutShort(P(), partial)))
      ensures r.Threw? && listenerThrew && !offContract ==> !(signal.aborted && r.error.abortLike)
    {
      hide Run, Legal, Excused, WithdrawnFrom, ThrownIn;
      hide Observed, PolledFrom, AgentFollows, QueuesFollow, Flatten, Accept, Next, Reduce;
      hide Transcript, Spoken, FinalReply;
      listenerThrew := false;
      var final :- AwaitResult(if item.TerminalItem? then Some(item.message) else None);
      r := FinishMessage(final, addedPartial);
      listenerThrew := r.Threw?;
    }

    /**
     * The body of `streamAssistantResponse` inside its `try`. `listenerThrew` says that it was left
     * because a listener rejected, which is the only way to be left in the middle of an emit.
     */
    method StreamBody()
      returns (r: Awaited<AssistantReply>, partial: Option<AssistantReply>, addedPartial: bool,
               ghost listenerThrew: bool)
      requires Valid()
      requires !offContract ==>
                 AwaitingResponse(P()) && SteeringAsked(P()) && Fresh(P()) && context == setup.base + Spoken(P())
      modifies this`context, this`trace, this`offContract, signal`aborted
      modifies agent`messages, agent`streamingMessage, agent`pendingToolCalls, agent`errorMessage
      ensures Valid() && (old(signal.aborted) ==> signal.aborted) && (old(offContract) ==> offContract)
      ensures old(trace) <= trace
      ensures r.Threw? ==> MayThrow(r.error)
      ensures addedPartial == partial.Some? && (addedPartial ==> context != [])
      ensures !offContract && r.Done? ==>
                && context == old(context) + [r.value]
                && P() == old(P()).(called := true, stream := P().stream, response := Some(r.value),
                                    aborted := signal.aborted)
      ensures !offContract && r.Threw? && !listenerThrew ==>
                && context == old(context) + (if addedPartial then [partial.value] else [])
                && P() == old(P()).(called := P().called, stream := P().stream, open := P().open,
                                    aborted := signal.aborted, dead := P().dead)
                && (signal.aborted && r.error.abortLike ==> CutShort(P(), partial))
      ensures !offContract && r.Threw? && listenerThrew ==> !(signal.aborted && r.error.abortLike)
    {
      hide Run, Legal, Excused, WithdrawnFrom, ThrownIn;
      hide Observed, PolledFrom, AgentFollows, QueuesFollow, Flatten, Accept, Next, Reduce;
      hide Transcript, Spoken, FinalReply;
      partial, addedPartial, listenerThrew := None, false, false;
      var requested := RequestStream();
      if requested.Threw? {
        if !offContract {
          UnreadIsCutShort(P());
        }
        return Threw(requested.error), partial, addedPartial, listenerThrew;
      }
      r, partial, addedPartial, listenerThrew := ReadStream();
    }

    /** The events of the stream, up to the one that ends it. */
    method ReadStream()
      returns (r: Awaited<AssistantReply>, partial: Option<AssistantReply>, addedPartial: bool,
               ghost listenerThrew: bool)
      requires Valid()
      requires !offContract ==> StreamAt(P(), None) && P().stream == NO_STREAM
      modifies this`context, this`trace, this`offContract, signal`aborted
      modifies agent`messages, agent`streamingMessage, agent`pendingToolCalls, agent`errorMessage
      ensures Valid() && (old(signal.aborted) ==> signal.aborted) && (old(offContract) ==> offContract)
      ensures old(trace) <= trace
      ensures r.Threw? ==> MayThrow(r.error)
      ensures addedPartial == partial.Some? && (addedPartial ==> context != [])
      ensures !offContract && r.Done? ==>
                && context == old(context) + [r.value]
                && P() == old(P()).(stream := P().stream, response := Some(r.value), aborted := signal.aborted)
      ensures !offContract && r.Threw? && !listenerThrew ==>
                && context == old(context) + (if addedPartial then [partial.value] else [])
                && P() == old(P()).(stream := P().stream, open := P().open, aborted := signal.aborted, dead := P().dead)
                && (signal.aborted && r.error.abortLike ==> CutShort(P(), partial))
      ensures !offContract && r.Threw? && listenerThrew ==> !(signal.aborted && r.error.abortLike)
    {
      hide Run, Legal, Excused, WithdrawnFrom, ThrownIn;
      hide Observed, PolledFrom, AgentFollows, QueuesFollow, Flatten, Accept, Next, Reduce;
      hide Transcript, Spoken, FinalReply;
      partial, addedPartial, listenerThrew := None, false, false;
      ghost var before := P();
      var streamed: nat :| true;
      while true
        invariant Valid() && (old(signal.aborted) ==> signal.aborted) && (old(offContract) ==> offContract)
        invariant old(trace) <= trace
        invariant addedPartial == partial.Some? && (addedPartial ==> context != [])
        invariant !listenerThrew
        invariant !offContract ==>
                    && context == old(context) + (if addedPartial then [partial.value] else [])
                    && P() == before.(stream := P().stream, open := P().open, aborted := signal.aborted)
                    && StreamAt(P(), partial) && StillOpen(P().stream)
        decreases streamed
      {
        var next := NextStreamItem(streamed > 0);
        if next.Threw? {
          if !offContract {
            UnreadIsCutShort(P());
          }
          return Threw(next.error), partial, addedPartial, listenerThrew;
        }
        var item := next.value;
        if item.TerminalItem? || item.StreamExhausted? {
          r, listenerThrew := FinishStream(item, partial, addedPartial);
          return;
        }
        if item.StartItem? || partial.Some? {
          var emitted := OnPartial(item, addedPartial);
          partial, addedPartial := Some(item.partial), true;
          if emitted.Threw? {
            return Threw(emitted.error), partial, addedPartial, true;
          }
        }
        streamed := streamed - 1;
      }
    }

    lemma CutShortReply(p: Protocol, partial: Option<AssistantReply>)
      requires CutShort(p, partial)
      ensures AcceptReply(p, AbortedMessage(partial)) && AbortedReply(AbortedMessage(partial))
      ensures !p.dead && p.aborted
      ensures (p.open.Some? <==> partial.Some?) && p.stream.partial == partial
    {}

    predicate StillOpen(t: Stream) {
      !t.over && t.terminal.None? && t.result.None?
    }

    /**
     * However the stream ends, the context has grown by exactly the returned message, and listeners have
     * seen exactly one more message bracket, which ends with it.
     */
    method StreamAssistantResponse() returns (r: Awaited<AssistantReply>)
      requires Valid()
      requires !offContract ==>
                 AwaitingResponse(P()) && SteeringAsked(P()) && Fresh(P()) && context == setup.base + Spoken(P())
      modifies this`context, this`trace, this`offContract, signal`aborted
      modifies agent`messages, agent`streamingMessage, agent`pendingToolCalls, agent`errorMessage
      ensures Valid() && (old(signal.aborted) ==> signal.aborted) && (old(offContract) ==> offContract)
      ensures old(trace) <= trace
      ensures r.Threw? ==> MayThrow(r.error)
      ensures !offContract && r.Done? ==>
                && context == old(context) + [r.value]
                && P() == old(P()).(called := P().called, stream := P().stream, response := Some(r.value),
                                    aborted := signal.aborted)
                && (P().called || (P().aborted && AbortedReply(r.value)))
                && OneBracketMore(old(trace), trace, r.value)
    {
      hide Run, Legal, Excused, WithdrawnFrom, ThrownIn;
      hide Observed, PolledFrom, AgentFollows, QueuesFollow, Spoken, FinalReply, AcceptReply, OneBracketMore, CutShort;
      ghost var listenerThrew;
      var partial, addedPartial;
      r, partial, addedPartial, listenerThrew := StreamBody();
      if r.Threw? && signal.aborted && r.error.abortLike {
        if !offContract {
          CutShortReply(P(), partial);
        }
        r := FinishMessage(AbortedMessage(partial), addedPartial);
      }
      if r.Done? && !offContract {
        SpokenWithResponse(old(P()), P(), r.value);
        OneMoreBracket(setup, old(trace), trace, r.value);
      }
    }

    // -------------------------------------------------------------- tool calls

    /** Nothing but what is known of the k-th call has changed, and perhaps the abort signal. */
    ghost predicate OnlyLog(before: Protocol, k: nat)
      reads this, signal
    {
      && P() == before.(logs := P().logs, aborted := signal.aborted)
      && |P().logs| == |before.logs| && k < |before.logs| && P().logs == before.logs[k := P().logs[k]]
    }

    /** The k-th call is running, and this is what is known of it. */
    ghost predicate Knows(k: nat, call: ToolCall, log: CallLog)
      reads this
    {
      IsRunning(P(), k, call) && k < |P().logs| && P().logs[k] == log
    }

    /** Nothing escapes: every failure on the way to an execution becomes an error result. */
    method PrepareToolCall(k: nat, call: ToolCall) returns (r: Preparation)
      requires Valid()
      requires !offContract ==> Knows(k, call, NO_LOG)
      modifies this`trace, signal`aborted
      ensures Valid() && (old(signal.aborted) ==> signal.aborted)
      ensures !offContract ==>
                && OnlyLog(old(P()), k)
                && (r.Prepared? ==> ReadyToRun(setup, P().logs[k]))
                && (r.Immediate? ==> EndOf(setup, P().logs[k], call.name) == Some(Executed(r.output, r.isError)))
      ensures r.Prepared? ==> FindTool(tools, call.name).Some?
      ensures r.Immediate? ==> r.isError && !r.output.terminate
    {
      hide Run, Legal, Excused, WithdrawnFrom, ThrownIn;
      hide Observed, PolledFrom, AgentFollows, QueuesFollow, Flatten, Accept, Next, Reduce, Transcript, Spoken;
      if FindTool(tools, call.name).None? {
        return Immediate(CreateErrorToolResult("Tool " + call.name + " not found"), true);
      }
      var refusal := CheckCall(k, call);
      if refusal.Some? {
        return Immediate(CreateErrorToolResult(refusal.value), true);
      }
      return Prepared;
    }

    /** What validating the arguments of a call says. */
    method CheckArguments(k: nat, call: ToolCall) returns (failure: Option<string>)
      requires Valid() && FindTool(tools, call.name).Some?
      requires !offContract ==> Knows(k, call, NO_LOG)
      modifies this`trace
      ensures Valid()
      ensures !offContract ==> OnlyLog(old(P()), k) && P().logs[k] == NO_LOG.(checked := Some(failure))
    {
      hide Run, Legal, Excused, WithdrawnFrom, ThrownIn;
      hide Observed, PolledFrom, AgentFollows, QueuesFollow, Flatten, Accept, Next, Reduce, Transcript, Spoken;
      failure :| true;
      RecordStep(k, ArgumentsChecked(failure));
    }

    /** How awaiting the hook before a call ends. */
    method AskBeforeToolCall(k: nat, call: ToolCall) returns (blocked: Awaited<Option<string>>)
      requires Valid() && toolHooks.beforeToolCall
      requires !offContract ==> Knows(k, call, NO_LOG.(checked := Some(None)))
      modifies this`trace, signal`aborted
      ensures Valid() && (old(signal.aborted) ==> signal.aborted)
      ensures !offContract ==>
                && OnlyLog(old(P()), k)
                && P().logs[k] == NO_LOG.(checked := Some(None), before := Some(blocked))
    {
      hide Run, Legal, Excused, WithdrawnFrom, ThrownIn;
      hide Observed, PolledFrom, AgentFollows, QueuesFollow, Flatten, Accept, Next, Reduce, Transcript, Spoken;
      var interrupted := RaceWithAbort();
      blocked :| true;
      if interrupted {
        blocked := Threw(ABORT_ERROR);
      }
      RecordStep(k, BeforeHookAnswered(blocked));
    }

    /** Arguments are validated, then the hook before the call is asked: either may refuse it. */
    method CheckCall(k: nat, call: ToolCall) returns (refusal: Option<string>)
      requires Valid() && FindTool(tools, call.name).Some?
      requires !offContract ==> Knows(k, call, NO_LOG)
      modifies this`trace, signal`aborted
      ensures Valid() && (old(signal.aborted) ==> signal.aborted)
      ensures !offContract ==>
                && OnlyLog(old(P()), k) && RefusalOf(P().logs[k]) == refusal
                && (refusal.None? ==> ReadyToRun(setup, P().logs[k]))
    {
      hide Run, Legal, Excused, WithdrawnFrom, ThrownIn;
      hide Observed, PolledFrom, AgentFollows, QueuesFollow, Flatten, Accept, Next, Reduce, Transcript, Spoken;
      refusal := CheckArguments(k, call);
      if refusal.None? && toolHooks.beforeToolCall {
        var blocked := AskBeforeToolCall(k, call);
        if blocked.Threw? {
          refusal := Some(blocked.error.message);
        } else if blocked.value.Some? {
          refusal := Some(if blocked.value.value == "" then "Tool execution was blocked" else blocked.value.value);
        }
      }
    }

    method EmitToolExecutionStart(k: nat, call: ToolCall) returns (r: Awaited<()>)
      requires Valid()
      requires !offContract ==>
                 Accept(setup, P(), ToolEmitted(k, ToolExecutionStart(call.id, call.name, call.arguments)))
      modifies this`trace, signal`aborted
      modifies agent`messages, agent`streamingMessage, agent`pendingToolCalls, agent`errorMessage
      ensures Valid() && (old(signal.aborted) ==> signal.aborted)
      ensures r.Threw? ==> MayThrow(r.error)
      ensures r.Done? && !offContract ==>
                P() == old(P()).(calls := old(P()).calls + [Running], logs := old(P()).logs + [NO_LOG],
                                 aborted := signal.aborted)
    {
      hide Run, Legal, Excused, WithdrawnFrom, ThrownIn;
      hide Observed, PolledFrom, AgentFollows, QueuesFollow, AcceptTool;
      r := Emit(ToolEmitted(k, ToolExecutionStart(call.id, call.name, call.arguments)));
    }

    /** An update that the tool gives. */
    method NextUpdate(k: nat, call: ToolCall) returns (partial: ToolOutput)
      requires Valid()
      requires !offContract ==>
                 IsRunning(P(), k, call) && k < |P().logs| && P().logs[k].invoked && P().logs[k].settled.None?
      modifies this`trace
      ensures ValidBut(DueUpdate(k, partial))
      ensures !offContract ==> P() == old(P()).(untold := DueUpdate(k, partial))
    {
      hide Run, Legal, Excused, WithdrawnFrom, ThrownIn;
      hide Observed, PolledFrom, Reduce, Accounted, Flatten, Transcript, Spoken;
      partial :| true;
      ghost var given := CallObserved(k, UpdateGiven(partial));
      Recorded(setup, initialView, trace, given);
      trace := trace + [given];
    }

    /** The tool gives an update, and the callback takes it. */
    method TakeUpdate(k: nat, call: ToolCall, ghost failed: Option<Failure>) returns (listenerFailure: Option<Failure>)
      requires Valid() && FindTool(tools, call.name).Some?
      requires !offContract ==> IsRunning(P(), k, call) && k < |P().logs| && Executes(setup, P().logs[k], failed)
      modifies this`trace, signal`aborted
      modifies agent`messages, agent`streamingMessage, agent`pendingToolCalls, agent`errorMessage
      ensures Valid() && (old(signal.aborted) ==> signal.aborted)
      ensures !offContract ==>
                && OnlyLog(old(P()), k)
                && Executes(setup, P().logs[k], if failed.Some? then failed else listenerFailure)
    {
      hide Run, Legal, Excused, WithdrawnFrom, ThrownIn;
      hide Observed, PolledFrom, AgentFollows, QueuesFollow, Flatten, Accept, Next, Reduce, Transcript, Spoken;
      var partial := NextUpdate(k, call);
      listenerFailure := OnUpdate(k, call, partial, failed);
    }

    /** Listeners are to be told of an update exactly if it is given before an abort. */
    ghost function DueUpdate(k: nat, partial: ToolOutput): Option<Untold>
      reads signal
    {
      if signal.aborted then None else Some(Untold(k, partial))
    }

    /** The `onUpdate` callback while updates are accepted: an aborted run drops the update. */
    method OnUpdate(k: nat, call: ToolCall, partial: ToolOutput, ghost failed: Option<Failure>)
      returns (listenerFailure: Option<Failure>)
      requires ValidBut(DueUpdate(k, partial)) && FindTool(tools, call.name).Some?
      requires !offContract ==> IsRunning(P(), k, call) && k < |P().logs| && Executes(setup, P().logs[k], failed)
      modifies this`trace, signal`aborted
      modifies agent`messages, agent`streamingMessage, agent`pendingToolCalls, agent`errorMessage
      ensures Valid() && (old(signal.aborted) ==> signal.aborted)
      ensures !offContract ==>
                && OnlyLog(old(P()).(untold := None), k)
                && Executes(setup, P().logs[k], if failed.Some? then failed else listenerFailure)
    {
      hide Run, Legal, Excused, WithdrawnFrom, ThrownIn;
      hide Observed, PolledFrom, AgentFollows, QueuesFollow;
      if signal.aborted {
        return None;
      }
      TellAgent(k, call, partial);
      var r := Notify();
      if r.Threw? {
        RecordStep(k, UpdateRejected(r.error));
        return Some(r.error);
      }
      return None;
    }

    /** An update reaches the agent's state at once. */
    method TellAgent(k: nat, call: ToolCall, partial: ToolOutput)
      requires ValidBut(Some(Untold(k, partial)))
      requires !offContract ==>
                 IsRunning(P(), k, call) && k < |P().logs| && P().logs[k].invoked && P().logs[k].settled.None?
      modifies this`trace
      modifies agent`messages, agent`streamingMessage, agent`pendingToolCalls, agent`errorMessage
      ensures Valid()
      ensures !offContract ==> P() == old(P()).(untold := None)
    {
      hide Run, Legal, Excused, WithdrawnFrom, ThrownIn;
      hide Observed, PolledFrom, Reduce, Accounted, Flatten, Transcript, Spoken;
      var event := ToolExecutionUpdate(call.id, call.name, call.arguments, partial);
      Recorded(setup, initialView, trace, ToolEmitted(k, event));
      agent.ApplyEvent(event);
      trace := trace + [ToolEmitted(k, event)];
    }

    /** How awaiting the tool ends: with its own outcome, unless the abort comes first. */
    method SettleTool(k: nat, call: ToolCall, ghost failed: Option<Failure>) returns (outcome: Awaited<ToolOutput>)
      requires Valid()
      requires !offContract ==> IsRunning(P(), k, call) && k < |P().logs| && Executes(setup, P().logs[k], failed)
      modifies this`trace, signal`aborted
      ensures Valid() && (old(signal.aborted) ==> signal.aborted)
      ensures old(signal.aborted) ==> outcome == Threw(ABORT_ERROR)
      ensures !offContract ==>
                && OnlyLog(old(P()), k)
                && P().logs[k] == old(P()).logs[k].(settled := Some(outcome))
    {
      hide Run, Legal, Excused, WithdrawnFrom, ThrownIn;
      hide Observed, PolledFrom, AgentFollows, QueuesFollow, Flatten, Accept, Next, Reduce, Transcript, Spoken;
      var interrupted := RaceWithAbort();
      outcome :| true;
      if interrupted {
        outcome := Threw(ABORT_ERROR);
      }
      RecordStep(k, ToolSettled(outcome));
    }

    /** The update listeners are awaited; what one of them threw fails the call, unless the run was aborted. */
    method SettleUpdates(k: nat, call: ToolCall, listenerFailure: Option<Failure>, ghost output: ToolOutput)
      returns (fault: Option<Failure>)
      requires Valid()
      requires !offContract ==>
                 && IsRunning(P(), k, call) && k < |P().logs| && P().logs[k].settled == Some(Done(output))
                 && Executes(setup, P().logs[k].(settled := None), listenerFailure)
      modifies this`trace, signal`aborted
      ensures Valid() && (old(signal.aborted) ==> signal.aborted)
      ensures !offContract ==>
                && OnlyLog(old(P()), k)
                && P().logs[k] == old(P()).logs[k].(drained := Some(fault))
    {
      hide Run, Legal, Excused, WithdrawnFrom, ThrownIn;
      hide Observed, PolledFrom, AgentFollows, QueuesFollow, Flatten, Accept, Next, Reduce, Transcript, Spoken;
      var interrupted := RaceWithAbort();
      fault := None;
      if !interrupted && listenerFailure.Some? && !(signal.aborted && listenerFailure.value.abortLike) {
        fault := listenerFailure;
      }
      RecordStep(k, UpdatesSettled(fault));
    }

    /** The tool's promise settles, or loses against the abort; then the update listeners are awaited. */
    method AwaitTool(k: nat, call: ToolCall, listenerFailure: Option<Failure>) returns (outcome: Awaited<ToolOutput>)
      requires Valid()
      requires !offContract ==>
                 IsRunning(P(), k, call) && k < |P().logs| && Executes(setup, P().logs[k], listenerFailure)
      modifies this`trace, signal`aborted
      ensures Valid() && (old(signal.aborted) ==> signal.aborted)
      ensures !offContract ==> OnlyLog(old(P()), k) && Concluded(setup, P().logs[k], outcome)
      ensures old(signal.aborted) ==> outcome.Threw?
    {
      hide Run, Legal, Excused, WithdrawnFrom, ThrownIn;
      hide Observed, PolledFrom, AgentFollows, QueuesFollow, Flatten, Accept, Next, Reduce, Transcript, Spoken;
      outcome := SettleTool(k, call, listenerFailure);
      if outcome.Done? {
        var fault := SettleUpdates(k, call, listenerFailure, outcome.value);
        if fault.Some? {
          outcome := Threw(fault.value);
        }
      }
    }

    /** The execution: the tool's output, or an error with the message of what went wrong. */
    method SettleExecution(k: nat, call: ToolCall, listenerFailure: Option<Failure>) returns (executed: Executed)
      requires Valid()
      requires !offContract ==>
                 IsRunning(P(), k, call) && k < |P().logs| && Executes(setup, P().logs[k], listenerFailure)
      modifies this`trace, signal`aborted
      ensures Valid() && (old(signal.aborted) ==> signal.aborted)
      ensures !offContract ==> OnlyLog(old(P()), k) && HasExecuted(setup, P().logs[k], executed)
      ensures old(signal.aborted) ==> executed == ErrorResult(ABORTED_TOOL)
    {
      hide Run, Legal, Excused, WithdrawnFrom, ThrownIn;
      hide Observed, PolledFrom, AgentFollows, QueuesFollow, Flatten, Accept, Next, Reduce, Transcript, Spoken;
      var outcome := AwaitTool(k, call, listenerFailure);
      if outcome.Threw? {
        var _ := RaceWithAbort();
      }
      match outcome {
        case Done(output) => executed := Executed(output, false);
        case Threw(error) => executed := ErrorResult(if signal.aborted then ABORTED_TOOL else error.message);
      }
      RecordStep(k, CallExecuted(executed));
    }

    /** How awaiting the hook behind a call ends. */
    method AskAfterToolCall(k: nat, call: ToolCall, ghost executed: Executed)
      returns (answer: Awaited<Option<AfterToolCallResult>>)
      requires Valid() && toolHooks.afterToolCall
      requires !offContract ==> IsRunning(P(), k, call) && k < |P().logs| && HasExecuted(setup, P().logs[k], executed)
      modifies this`trace, signal`aborted
      ensures Valid() && (old(signal.aborted) ==> signal.aborted)
      ensures !offContract ==>
                && OnlyLog(old(P()), k)
                && P().logs[k] == old(P()).logs[k].(after := Some(answer))
    {
      hide Run, Legal, Excused, WithdrawnFrom, ThrownIn;
      hide Observed, PolledFrom, AgentFollows, QueuesFollow, Flatten, Accept, Next, Reduce, Transcript, Spoken;
      var interrupted := RaceWithAbort();
      answer :| true;
      if interrupted {
        answer := Threw(ABORT_ERROR);
      }
      RecordStep(k, AfterHookAnswered(answer));
    }

    method FinalizeExecutedToolCall(k: nat, call: ToolCall, executed: Executed) returns (finalized: Finalized)
      requires Valid() && FindTool(tools, call.name).Some?
      requires !offContract ==> IsRunning(P(), k, call) && k < |P().logs| && HasExecuted(setup, P().logs[k], executed)
      modifies this`trace, signal`aborted
      ensures Valid() && (old(signal.aborted) ==> signal.aborted)
      ensures finalized.call == call
      ensures !offContract ==>
                && OnlyLog(old(P()), k)
                && EndOf(setup, P().logs[k], call.name) == Some(Executed(finalized.output, finalized.isError))
    {
      hide Run, Legal, Excused, WithdrawnFrom, ThrownIn;
      hide Observed, PolledFrom, AgentFollows, QueuesFollow, Flatten, Accept, Next, Reduce, Transcript, Spoken;
      var result := executed;
      if toolHooks.afterToolCall {
        var answer := AskAfterToolCall(k, call, executed);
        if answer.Threw? {
          result := ErrorResult(answer.error.message);
        } else if answer.value.Some? {
          result := MergeAfterToolCall(executed, answer.value.value);
        }
      }
      return Finalized(call, result.output, result.isError);
    }

    method EmitToolExecutionEnd(k: nat, f: Finalized) returns (r: Awaited<()>)
      requires Valid()
      requires !offContract ==>
                 && IsRunning(P(), k, f.call) && k < |P().logs|
                 && EndOf(setup, P().logs[k], f.call.name) == Some(Executed(f.output, f.isError))
      modifies this`trace, signal`aborted
      modifies agent`messages, agent`streamingMessage, agent`pendingToolCalls, agent`errorMessage
      ensures Valid() && (old(signal.aborted) ==> signal.aborted)
      ensures r.Threw? ==> MayThrow(r.error)
      ensures r.Done? && !offContract ==>
                && k < |old(P()).calls|
                && P() == old(P()).(calls := old(P()).calls[k := Ended(f.output, f.isError)], aborted := signal.aborted)
    {
      hide Run, Legal, Excused, WithdrawnFrom, ThrownIn;
      hide Observed, PolledFrom, AgentFollows, QueuesFollow;
      r := Emit(ToolEmitted(k, ToolExecutionEnd(f.call.id, f.call.name, f.output, f.isError)));
    }

    method EmitToolResultMessage(f: Finalized) returns (r: Awaited<AgentMessage>)
      requires Valid()
      requires !offContract ==>
        InBatch(P()) && |P().said| == |P().owed| && AcceptMessage(P(), CreateToolResultMessage(f))
      modifies this`trace, signal`aborted
      modifies agent`messages, agent`streamingMessage, agent`pendingToolCalls, agent`errorMessage
      ensures Valid() && (old(signal.aborted) ==> signal.aborted)
      ensures r.Threw? ==> MayThrow(r.error)
      ensures r.Done? ==> r.value == CreateToolResultMessage(f)
      ensures r.Done? && !offContract ==>
                P() == old(P()).(results := old(P()).results + [r.value], aborted := signal.aborted)
    {
      hide Run, Legal, Excused, WithdrawnFrom, ThrownIn;
      hide Observed, PolledFrom, AgentFollows, QueuesFollow, AcceptMessage;
      var message := CreateToolResultMessage(f);
      var _ :- Emit(Emitted(MessageStart(message)));
      var _ :- Emit(Emitted(MessageEnd(message)));
      return Done(message);
    }

    /** `executePreparedToolCall` when calls run one at a time. */
    method ExecutePreparedToolCall(k: nat, call: ToolCall) returns (executed: Executed)
      requires Valid() && FindTool(tools, call.name).Some?
      requires !offContract ==> IsRunning(P(), k, call) && k < |P().logs| && ReadyToRun(setup, P().logs[k])
      modifies this`trace, signal`aborted
      modifies agent`messages, agent`streamingMessage, agent`pendingToolCalls, agent`errorMessage
      ensures Valid() && (old(signal.aborted) ==> signal.aborted)
      ensures !offContract ==> OnlyLog(old(P()), k) && HasExecuted(setup, P().logs[k], executed)
    {
      hide Run, Legal, Excused, WithdrawnFrom, ThrownIn;
      hide Observed, PolledFrom, AgentFollows, QueuesFollow, Flatten, Accept, Next, Reduce, Transcript, Spoken;
      if signal.aborted {
        executed := ErrorResult(ABORTED_TOOL);
        RecordStep(k, CallExecuted(executed));
        return;
      }
      ghost var before := P();
      RecordStep(k, ToolInvoked);
      var listenerFailure := None;
      var updates: nat :| true;
      while updates > 0
        invariant Valid()
        invariant offContract == old(offContract)
        invariant !offContract ==> OnlyLog(before, k) && Executes(setup, P().logs[k], listenerFailure)
      {
        Yield();
        var failure := TakeUpdate(k, call, listenerFailure);
        listenerFailure := if listenerFailure.Some? then listenerFailure else failure;
        updates := updates - 1;
      }
      executed := SettleExecution(k, call, listenerFailure);
    }

    /** From preparation to the finalized outcome of a call that has started. */
    method PrepareAndExecute(k: nat, call: ToolCall) returns (finalized: Finalized)
      requires Valid()
      requires !offContract ==> Knows(k, call, NO_LOG)
      modifies this`trace, signal`aborted
      modifies agent`messages, agent`streamingMessage, agent`pendingToolCalls, agent`errorMessage
      ensures Valid() && (old(signal.aborted) ==> signal.aborted)
      ensures finalized.call == call
      ensures !offContract ==>
                && OnlyLog(old(P()), k)
                && EndOf(setup, P().logs[k], call.name) == Some(Executed(finalized.output, finalized.isError))
    {
      hide Run, Legal, Excused, WithdrawnFrom, ThrownIn;
      hide Observed, PolledFrom, AgentFollows, QueuesFollow, Flatten, Accept, Next, Reduce, Transcript, Spoken, EndOf;
      var preparation := PrepareToolCall(k, call);
      match preparation
      case Immediate(output, isError) => return Finalized(call, output, isError);
      case Prepared =>
        var executed := ExecutePreparedToolCall(k, call);
        finalized := FinalizeExecutedToolCall(k, call, executed);
    }

    /** One call from its start event to its result message. */
    method RunToolCall(k: nat, call: ToolCall) returns (r: Awaited<Finalized>)
      requires Valid() && !signal.aborted
      requires !offContract ==>
                 && InBatch(P()) && P().batch == Some(Sequential) && |P().said| == |P().owed|
                 && k == |P().calls| == |P().logs| == |P().results| < |CallsOf(P().response.value)|
                 && NoneRunning(P().calls)
                 && CallsOf(P().response.value)[k] == call
      modifies this`trace, signal`aborted
      modifies agent`messages, agent`streamingMessage, agent`pendingToolCalls, agent`errorMessage
      ensures Valid()
      ensures r.Threw? ==> MayThrow(r.error)
      ensures r.Done? ==> r.value.call == call
      ensures r.Done? && !offContract ==>
                P() == old(P()).(calls := old(P()).calls + [Ended(r.value.output, r.value.isError)],
                                 logs := P().logs, results := old(P()).results + [CreateToolResultMessage(r.value)],
                                 aborted := signal.aborted)
                && |P().logs| == k + 1
    {
      hide Run, Legal, Excused, WithdrawnFrom, ThrownIn;
      hide Observed, PolledFrom, AgentFollows, QueuesFollow, Flatten, Next, Reduce, Transcript, Spoken, EndOf;
      var _ :- EmitToolExecutionStart(k, call);
      var finalized := PrepareAndExecute(k, call);
      var _ :- EmitToolExecutionEnd(k, finalized);
      var _ :- EmitToolResultMessage(finalized);
      return Done(finalized);
    }

    /**
     * What a finished batch leaves behind: results in source order, and cut short only by an abort of a
     * sequential one.
     */
    ghost predicate BatchDone(before: Protocol, toolCalls: seq<ToolCall>, batch: Batch)
      reads this, signal
    {
      var p := P();
      && p == before.(calls := p.calls, logs := p.logs, results := p.results, aborted := signal.aborted)
      && p.results == batch.messages && |p.calls| == |p.results| <= |toolCalls|
      && NoneRunning(p.calls) && batch.terminate == Terminates(p.calls)
      && (forall j | 0 <= j < |p.results| :: IsResultOf(p.results[j], toolCalls[j]))
      && (|p.results| == |toolCalls| || (p.batch == Some(Sequential) && signal.aborted))
    }

    method ExecuteToolCallsSequential(toolCalls: seq<ToolCall>) returns (r: Awaited<Batch>)
      requires Valid()
      requires !offContract ==>
                 && InBatch(P()) && P().batch == Some(Sequential) && CallsOf(P().response.value) == toolCalls
                 && |P().said| == |P().owed| && P().calls == [] && P().logs == [] && P().results == []
      modifies this`trace, signal`aborted
      modifies agent`messages, agent`streamingMessage, agent`pendingToolCalls, agent`errorMessage
      ensures Valid() && (old(signal.aborted) ==> signal.aborted)
      ensures r.Threw? ==> MayThrow(r.error)
      ensures r.Done? && !offContract ==> BatchDone(old(P()), toolCalls, r.value)
    {
      hide Run, Legal, Excused, WithdrawnFrom, ThrownIn;
      hide Observed, PolledFrom, AgentFollows, QueuesFollow, Flatten, Accept, Next, Reduce, Transcript, Spoken,
           Terminates;
      ghost var before := P();
      var finalizedCalls: seq<Finalized> := [];
      var messages: seq<AgentMessage> := [];
      var i := 0;
      while i < |toolCalls|
        invariant 0 <= i <= |toolCalls|
        invariant Valid() && (old(signal.aborted) ==> signal.aborted)
        invariant |messages| == i
        invariant forall j | 0 <= j < i :: IsResultOf(messages[j], toolCalls[j])
        invariant !offContract ==>
                    && P() == before.(calls := P().calls, logs := P().logs, results := messages,
                                      aborted := signal.aborted)
                    && |P().calls| == |P().logs| == i && Tally(finalizedCalls, toolCalls, P().calls)
        invariant offContract == old(offContract)
      {
        if signal.aborted {
          break;
        }
        var finalized :- RunToolCall(i, toolCalls[i]);
        finalizedCalls := finalizedCalls + [finalized];
        messages := messages + [CreateToolResultMessage(finalized)];
        i := i + 1;
        if signal.aborted {
          break;
        }
      }
      if !offContract {
        TallyTerminates(finalizedCalls, toolCalls, P().calls);
      }
      return Done(Batch(messages, ShouldTerminateToolBatch(finalizedCalls)));
    }

    /** The preflight of one parallel call: a blocked one ends at once, the others wait for the batch to run. */
    method StartParallelCall(k: nat, call: ToolCall) returns (r: Awaited<Entry>)
      requires Valid()
      requires !offContract ==>
                 && InBatch(P()) && P().batch == Some(Parallel) && P().results == []
                 && k == |P().calls| == |P().logs| < |CallsOf(P().response.value)|
                 && CallsOf(P().response.value)[k] == call
      modifies this`trace, signal`aborted
      modifies agent`messages, agent`streamingMessage, agent`pendingToolCalls, agent`errorMessage
      ensures Valid() && (old(signal.aborted) ==> signal.aborted)
      ensures r.Threw? ==> MayThrow(r.error)
      ensures r.Done? ==> if r.value.Finished? then r.value.finalized.call == call
                          else FindTool(tools, call.name).Some?
      ensures r.Done? && !offContract ==>
                && P() == old(P()).(calls := P().calls, logs := P().logs, aborted := signal.aborted)
                && P().calls == old(P()).calls
                     + [if r.value.Finished? then Ended(r.value.finalized.output, r.value.finalized.isError)
                        else Running]
                && |P().logs| == k + 1 && P().logs[..k] == old(P()).logs
                && EntryFits(r.value, P().logs[k], setup)
    {
      hide Run, Legal, Excused, WithdrawnFrom, ThrownIn;
      hide Observed, PolledFrom, AgentFollows, QueuesFollow, Flatten, Next, Reduce, Transcript, Spoken, EndOf;
      var _ :- EmitToolExecutionStart(k, call);
      var preparation := PrepareToolCall(k, call);
      if preparation.Immediate? {
        var finalized := Finalized(call, preparation.output, preparation.isError);
        var _ :- EmitToolExecutionEnd(k, finalized);
        return Done(Finished(finalized));
      }
      return Done(NotStarted);
    }

    /** The preflight of a parallel batch: every call starts, in source order; blocked ones end at once. */
    method StartParallelCalls(toolCalls: seq<ToolCall>) returns (r: Awaited<seq<Entry>>)
      requires Valid()
      requires !offContract ==>
                 && InBatch(P()) && P().batch == Some(Parallel) && CallsOf(P().response.value) == toolCalls
                 && P().calls == [] && P().logs == [] && P().results == []
      modifies this`trace, signal`aborted
      modifies agent`messages, agent`streamingMessage, agent`pendingToolCalls, agent`errorMessage
      ensures Valid() && (old(signal.aborted) ==> signal.aborted)
      ensures r.Threw? ==> MayThrow(r.error)
      ensures r.Done? ==> |r.value| == |toolCalls|
      ensures r.Done? ==> forall i | 0 <= i < |toolCalls| ::
                            if r.value[i].Finished? then r.value[i].finalized.call == toolCalls[i]
                            else FindTool(tools, toolCalls[i].name).Some?
      ensures r.Done? && !offContract ==>
                && P() == old(P()).(calls := P().calls, logs := P().logs, aborted := signal.aborted)
                && Follows(r.value, toolCalls, P(), setup)
    {
      hide Run, Legal, Excused, WithdrawnFrom, ThrownIn;
      hide Observed, PolledFrom, AgentFollows, QueuesFollow, Flatten, Accept, Next, Reduce, Transcript, Spoken;
      ghost var before := P();
      var entries: seq<Entry> := [];
      for k := 0 to |toolCalls|
        invariant Valid() && (old(signal.aborted) ==> signal.aborted)
        invariant |entries| == k && offContract == old(offContract)
        invariant forall i | 0 <= i < k ::
                    if entries[i].Finished? then entries[i].finalized.call == toolCalls[i]
                    else FindTool(tools, toolCalls[i].name).Some?
        invariant !offContract ==>
                    && P() == before.(calls := P().calls, logs := P().logs, aborted := signal.aborted)
                    && Follows(entries, toolCalls, P(), setup)
      {
        var entry :- StartParallelCall(k, toolCalls[k]);
        entries := entries + [entry];
      }
      return Done(entries);
    }

    /**
     * One scheduling step of the k-th concurrent task: it starts, publishes an update (if it may),
     * settles, or is finalized and ends. Between any two steps other tasks may run.
     */
    method StepEntry(k: nat, call: ToolCall, entry: Entry, mayUpdate: bool) returns (r: Awaited<Entry>)
      requires Valid() && !entry.Finished?
      requires !offContract ==>
                 IsRunning(P(), k, call) && k < |P().logs| && EntryFits(entry, P().logs[k], setup)
      requires FindTool(tools, call.name).Some?
      modifies this`trace, signal`aborted
      modifies agent`messages, agent`streamingMessage, agent`pendingToolCalls, agent`errorMessage
      ensures Valid() && (old(signal.aborted) ==> signal.aborted)
      ensures r.Threw? ==> MayThrow(r.error)
      ensures r.Done? && r.value.Finished? ==> r.value.finalized.call == call
      ensures r.Done? ==> StepsLeft([r.value]) < StepsLeft([entry])
                          || (StepsLeft([r.value]) == StepsLeft([entry]) && mayUpdate)
      ensures r.Done? && !offContract ==>
                && k < |old(P()).calls|
                && P() == old(P()).(calls := P().calls, logs := P().logs, aborted := signal.aborted)
                && P().calls == if r.value.Finished?
                                then old(P()).calls[k := Ended(r.value.finalized.output, r.value.finalized.isError)]
                                else old(P()).calls
      ensures r.Done? && !offContract ==>
                && k < |old(P()).logs| == |P().logs| && P().logs == old(P()).logs[k := P().logs[k]]
                && EntryFits(r.value, P().logs[k], setup)
    {
      hide Run, Legal, Excused, WithdrawnFrom, ThrownIn;
      hide Observed, PolledFrom, AgentFollows, QueuesFollow, Flatten, Accept, Next, Reduce, Transcript, Spoken, EndOf;
      match entry
      case NotStarted =>
        var started := StartEntry(k, call);
        return Done(started);
      case Executing(listenerFailure) =>
        Yield();
        var publishes: bool :| true;
        if mayUpdate && publishes {
          var failure := TakeUpdate(k, call, listenerFailure);
          return Done(Executing(if listenerFailure.Some? then listenerFailure else failure));
        }
        var executed := SettleExecution(k, call, listenerFailure);
        return Done(Settled(executed));
      case Settled(executed) =>
        var finalized := FinalizeExecutedToolCall(k, call, executed);
        var _ :- EmitToolExecutionEnd(k, finalized);
        return Done(Finished(finalized));
    }

    /** A task invokes its tool, unless the run was aborted first. */
    method StartEntry(k: nat, call: ToolCall) returns (entry: Entry)
      requires Valid() && FindTool(tools, call.name).Some?
      requires !offContract ==> IsRunning(P(), k, call) && k < |P().logs| && ReadyToRun(setup, P().logs[k])
      modifies this`trace
      ensures Valid()
      ensures entry == if signal.aborted then Settled(ErrorResult(ABORTED_TOOL)) else Executing(None)
      ensures !offContract ==> OnlyLog(old(P()), k) && EntryFits(entry, P().logs[k], setup)
    {
      hide Run, Legal, Excused, WithdrawnFrom, ThrownIn;
      hide Observed, PolledFrom, AgentFollows, QueuesFollow, Flatten, Accept, Next, Reduce, Transcript, Spoken, EndOf;
      if signal.aborted {
        RecordStep(k, CallExecuted(ErrorResult(ABORTED_TOOL)));
        return Settled(ErrorResult(ABORTED_TOOL));
      }
      RecordStep(k, ToolInvoked);
      return Executing(None);
    }

    /** `Promise.all` over the tasks: any unfinished task may take the next step, in any order. */
    method RunParallelCalls(toolCalls: seq<ToolCall>, started: seq<Entry>) returns (r: Awaited<seq<Entry>>)
      requires Valid() && |started| == |toolCalls|
      requires forall i | 0 <= i < |toolCalls| ::
                 if started[i].Finished? then started[i].finalized.call == toolCalls[i]
                 else FindTool(tools, toolCalls[i].name).Some?
      requires !offContract ==>
                 && InBatch(P()) && CallsOf(P().response.value) == toolCalls
                 && Follows(started, toolCalls, P(), setup)
      modifies this`trace, signal`aborted
      modifies agent`messages, agent`streamingMessage, agent`pendingToolCalls, agent`errorMessage
      ensures Valid() && (old(signal.aborted) ==> signal.aborted)
      ensures r.Threw? ==> MayThrow(r.error)
      ensures r.Done? ==> |r.value| == |toolCalls| && AllFinished(r.value)
      ensures r.Done? ==> forall i | 0 <= i < |toolCalls| :: r.value[i].finalized.call == toolCalls[i]
      ensures r.Done? && !offContract ==>
                && P() == old(P()).(calls := P().calls, logs := P().logs, aborted := signal.aborted)
                && Follows(r.value, toolCalls, P(), setup)
    {
      hide Run, Legal, Excused, WithdrawnFrom, ThrownIn;
      hide Observed, PolledFrom, AgentFollows, QueuesFollow, Flatten, Accept, Next, Reduce, Transcript, Spoken,
           EntryFits;
      ghost var before := P();
      var entries := started;
      var updates: nat :| true;
      while !AllFinished(entries)
        invariant Valid() && (old(signal.aborted) ==> signal.aborted)
        invariant |entries| == |toolCalls| && offContract == old(offContract)
        invariant forall i | 0 <= i < |toolCalls| ::
                    if entries[i].Finished? then entries[i].finalized.call == toolCalls[i]
                    else FindTool(tools, toolCalls[i].name).Some?
        invariant !offContract ==>
                    && P() == before.(calls := P().calls, logs := P().logs, aborted := signal.aborted)
                    && Follows(entries, toolCalls, P(), setup)
        decreases StepsLeft(entries), updates
      {
        var k: nat :| k < |entries| && !entries[k].Finished?;
        ghost var p := P();
        var entry :- StepEntry(k, toolCalls[k], entries[k], updates > 0);
        if !offContract {
          FollowsStep(entries, toolCalls, p, P(), setup, k, entry);
        }
        StepsLeftUpdate(entries, k, entry);
        updates := if updates > 0 then updates - 1 else 0;
        entries := entries[k := entry];
      }
      return Done(entries);
    }

    method ExecuteToolCallsParallel(toolCalls: seq<ToolCall>) returns (r: Awaited<Batch>)
      requires Valid()
      requires !offContract ==>
                 && InBatch(P()) && P().batch == Some(Parallel) && CallsOf(P().response.value) == toolCalls
                 && |P().said| == |P().owed| && P().calls == [] && P().logs == [] && P().results == []
      modifies this`trace, signal`aborted
      modifies agent`messages, agent`streamingMessage, agent`pendingToolCalls, agent`errorMessage
      ensures Valid() && (old(signal.aborted) ==> signal.aborted)
      ensures r.Threw? ==> MayThrow(r.error)
      ensures r.Done? && !offContract ==> BatchDone(old(P()), toolCalls, r.value)
    {
      hide Run, Legal, Excused, WithdrawnFrom, ThrownIn;
      hide Observed, PolledFrom, AgentFollows, QueuesFollow, Flatten, Accept, Next, Reduce, Transcript, Spoken,
           Terminates;
      ghost var before := P();
      var started :- StartParallelCalls(toolCalls);
      var entries :- RunParallelCalls(toolCalls, started);
      ghost var ended := P();
      var finalizedCalls: seq<Finalized> := seq(|entries|, i requires 0 <= i < |entries| => entries[i].finalized);
      assert !offContract ==> Tally(finalizedCalls, toolCalls, ended.calls);
      var messages :- EmitToolResults(finalizedCalls, toolCalls);
      if !offContract {
        TallyTerminates(finalizedCalls, toolCalls, ended.calls);
      }
      return Done(Batch(messages, ShouldTerminateToolBatch(finalizedCalls)));
    }

    /** The result messages of a batch whose calls have all ended, in source order. */
    method EmitToolResults(finalizedCalls: seq<Finalized>, toolCalls: seq<ToolCall>)
      returns (r: Awaited<seq<AgentMessage>>)
      requires Valid() && |finalizedCalls| == |toolCalls|
      requires forall i | 0 <= i < |toolCalls| :: finalizedCalls[i].call == toolCalls[i]
      requires !offContract ==>
                 && InBatch(P()) && P().batch == Some(Parallel) && CallsOf(P().response.value) == toolCalls
                 && |P().said| == |P().owed| && P().results == [] && Tally(finalizedCalls, toolCalls, P().calls)
      modifies this`trace, signal`aborted
      modifies agent`messages, agent`streamingMessage, agent`pendingToolCalls, agent`errorMessage
      ensures Valid() && (old(signal.aborted) ==> signal.aborted)
      ensures r.Threw? ==> MayThrow(r.error)
      ensures r.Done? ==>
              |r.value| == |toolCalls| && forall j | 0 <= j < |toolCalls| :: IsResultOf(r.value[j], toolCalls[j])
      ensures r.Done? && !offContract ==> P() == old(P()).(results := r.value, aborted := signal.aborted)
    {
      hide Run, Legal, Excused, WithdrawnFrom, ThrownIn;
      hide Observed, PolledFrom, AgentFollows, QueuesFollow, Flatten, Accept, Next, Reduce, Transcript, Spoken,
           Terminates;
      ghost var ended := P();
      var messages: seq<AgentMessage> := [];
      for i := 0 to |finalizedCalls|
        invariant Valid() && (old(signal.aborted) ==> signal.aborted)
        invariant |messages| == i && offContract == old(offContract)
        invariant forall j | 0 <= j < i :: IsResultOf(messages[j], toolCalls[j])
        invariant !offContract ==> P() == ended.(results := messages, aborted := signal.aborted)
      {
        var message :- EmitToolResultMessage(finalizedCalls[i]);
        messages := messages + [message];
      }
      return Done(messages);
    }

    method ExecuteToolCalls(message: AssistantReply) returns (r: Awaited<Batch>)
      requires Valid()
      requires !offContract ==>
                 && Quiet(P()) && P().response == Some(message) && P().batch.None?
                 && !Failed(message) && CallsOf(message) != []
                 && |P().said| == |P().owed| && P().calls == [] && P().logs == [] && P().results == []
      modifies this`trace, signal`aborted
      modifies agent`messages, agent`streamingMessage, agent`pendingToolCalls, agent`errorMessage
      ensures Valid() && (old(signal.aborted) ==> signal.aborted)
      ensures r.Threw? ==> MayThrow(r.error)
      ensures r.Done? && !offContract ==>
                BatchDone(old(P()).(batch := Some(BatchMode(setup, message.toolCalls))), message.toolCalls, r.value)
    {
      hide Run, Legal, Excused, WithdrawnFrom, ThrownIn;
      hide Observed, PolledFrom, AgentFollows, QueuesFollow, Flatten, Accept, Next, Reduce, Transcript, Spoken;
      var toolCalls := message.toolCalls;
      var hasSequentialToolCall := exists i | 0 <= i < |toolCalls| ::
        FindTool(tools, toolCalls[i].name).Some?
        && FindTool(tools, toolCalls[i].name).value.executionMode == Some(Sequential);
      var mode := if toolExecution == Sequential || hasSequentialToolCall then Sequential else Parallel;
      assert mode == BatchMode(setup, toolCalls);
      if !offContract {
        Dispatching(setup, P(), message, mode);
      }
      Record(BatchDispatched(mode));
      if mode == Sequential {
        r := ExecuteToolCallsSequential(toolCalls);
      } else {
        r := ExecuteToolCallsParallel(toolCalls);
      }
    }

    // -------------------------------------------------------------- the loop

    /** A message that is not streamed: its bracket opens and closes at once. */
    method Announce(message: AgentMessage) returns (r: Awaited<()>)
      requires Valid()
      requires !offContract ==>
                 Quiet(P()) && |P().said| < |P().owed| && P().owed[|P().said|] == message && !P().called
      modifies this`trace, signal`aborted
      modifies agent`messages, agent`streamingMessage, agent`pendingToolCalls, agent`errorMessage
      ensures Valid() && (old(signal.aborted) ==> signal.aborted)
      ensures r.Threw? ==> MayThrow(r.error)
      ensures r.Done? && !offContract ==> P() == old(P()).(said := old(P()).said + [message], aborted := signal.aborted)
    {
      hide Run, Legal, Excused, WithdrawnFrom, ThrownIn;
      hide Observed, PolledFrom, AgentFollows, QueuesFollow, Transcript;
      var _ :- Emit(Emitted(MessageStart(message)));
      r := Emit(Emitted(MessageEnd(message)));
    }

    method InjectOne(message: AgentMessage) returns (r: Awaited<()>)
      requires Valid()
      requires !offContract ==>
                 Quiet(P()) && |P().said| < |P().owed| && P().owed[|P().said|] == message && Fresh(P()) && Synced()
      modifies this`context, this`newMessages, this`trace, signal`aborted
      modifies agent`messages, agent`streamingMessage, agent`pendingToolCalls, agent`errorMessage
      ensures Valid() && (old(signal.aborted) ==> signal.aborted)
      ensures r.Threw? ==> MayThrow(r.error)
      ensures r.Done? && !offContract ==>
                P() == old(P()).(said := old(P()).said + [message], aborted := signal.aborted) && Synced()
    {
      hide Run, Legal, Excused, WithdrawnFrom, ThrownIn;
      hide Observed, PolledFrom, AgentFollows, QueuesFollow, Flatten, Accept, Next, Reduce, Transcript;
      ghost var before := P();
      var _ :- Announce(message);
      context := context + [message];
      newMessages := newMessages + [message];
      assert !offContract ==> Spoken(P()) == Spoken(before) + [message];
      return Done(());
    }

    /** Pending messages open the turn: each is announced, then joins the context and the new messages. */
    method InjectPending(pending: seq<AgentMessage>) returns (r: Awaited<()>)
      requires Valid()
      requires !offContract ==>
                 P().status.InTurn? && Fresh(P()) && P().owed == P().said + pending && Synced()
      modifies this`context, this`newMessages, this`trace, signal`aborted
      modifies agent`messages, agent`streamingMessage, agent`pendingToolCalls, agent`errorMessage
      ensures Valid() && (old(signal.aborted) ==> signal.aborted)
      ensures r.Threw? ==> MayThrow(r.error)
      ensures r.Done? && !offContract ==>
                && P() == old(P()).(said := old(P()).owed, aborted := signal.aborted)
                && Synced()
    {
      hide Run, Legal, Excused, WithdrawnFrom, ThrownIn;
      hide Observed, PolledFrom, AgentFollows, QueuesFollow, Flatten, Accept, Next, Reduce, Transcript, Spoken;
      ghost var before := P();
      assert before.said + pending[..0] == before.said;
      for i := 0 to |pending|
        invariant Valid() && (old(signal.aborted) ==> signal.aborted)
        invariant offContract == old(offContract)
        invariant !offContract ==>
                    && P() == before.(said := before.said + pending[..i], aborted := signal.aborted)
                    && Synced()
      {
        assert before.said + pending[..i + 1] == before.said + pending[..i] + [pending[i]];
        var _ :- InjectOne(pending[i]);
      }
      assert before.said + pending[..|pending|] == before.said + pending;
      return Done(());
    }

    /** `turn_end` closes the books: the turn's messages are its injected ones, the response, and the results. */
    method CloseTurn(message: AssistantReply, toolResults: seq<AgentMessage>) returns (r: Awaited<()>)
      requires Valid()
      requires !offContract ==>
                 && Accept(setup, P(), Emitted(TurnEnd(message, toolResults)))
                 && P().said == P().owed && !P().stopping && Synced()
                 && (Failed(message) || Answered(ClosedTurn(P(), message)) || P().aborted)
      modifies this`trace, signal`aborted
      modifies agent`messages, agent`streamingMessage, agent`pendingToolCalls, agent`errorMessage
      ensures Valid() && (old(signal.aborted) ==> signal.aborted)
      ensures r.Threw? ==> MayThrow(r.error)
      ensures r.Done? && !offContract ==>
                && AtBoundary(P()) && P().owed == [] && P().lastPoll.None? && P().asked == [] && Synced()
                && P().aborted == signal.aborted && P().turns == old(P()).turns + [ClosedTurn(old(P()), message)]
                && (!Failed(message) ==> RestingWith(P(), []))
    {
      hide Run, Legal, Excused, WithdrawnFrom, ThrownIn;
      hide Observed, PolledFrom, AgentFollows, QueuesFollow, Transcript;
      if !offContract {
        SpokenAfterTurn(P(), message);
        assert Accept(setup, P(), Emitted(TurnEnd(message, toolResults)));
      }
      r := Emit(Emitted(TurnEnd(message, toolResults)));
    }

    /** The tool calls of a response that did not fail, if it has any. */
    method ExecuteRequested(message: AssistantReply) returns (r: Awaited<Batch>)
      requires Valid()
      requires !offContract ==>
                 && Quiet(P()) && P().response == Some(message) && P().batch.None?
                 && P().said == P().owed && P().calls == [] && P().logs == [] && P().results == []
                 && Synced() && !Failed(message) && !P().stopping
      modifies this`context, this`newMessages, this`trace, signal`aborted
      modifies agent`messages, agent`streamingMessage, agent`pendingToolCalls, agent`errorMessage
      ensures Valid() && (old(signal.aborted) ==> signal.aborted)
      ensures r.Threw? ==> MayThrow(r.error)
      ensures r.Done? && !offContract ==>
                && Accept(setup, P(), Emitted(TurnEnd(message, r.value.messages)))
                && P().response == Some(message) && P().said == P().owed && !P().stopping && Synced()
                && P().turns == old(P()).turns
                && (Answered(ClosedTurn(P(), message)) || P().aborted)
                && ClosedTurn(P(), message).wantsMore == !r.value.terminate
    {
      hide Run, Legal, Excused, WithdrawnFrom, ThrownIn;
      hide Observed, PolledFrom, AgentFollows, QueuesFollow, Transcript, Terminates;
      if |message.toolCalls| == 0 {
        return Done(Batch([], true));
      }
      ghost var before := Spoken(P());
      var batch :- ExecuteToolCalls(message);
      context := context + batch.messages;
      newMessages := newMessages + batch.messages;
      assert !offContract ==> Spoken(P()) == before + batch.messages;
      return Done(batch);
    }

    /** The response, its tool batch, and the end of the turn. */
    method RespondAndExecute() returns (r: Awaited<TurnOutcome>)
      requires Valid()
      requires !offContract ==>
                 && P().status.InTurn? && Fresh(P()) && P().said == P().owed && !P().stopping && Synced()
                 && SteeringAsked(P())
      modifies this`context, this`newMessages, this`trace, this`offContract, signal`aborted
      modifies agent`messages, agent`streamingMessage, agent`pendingToolCalls, agent`errorMessage
      ensures Valid() && (old(signal.aborted) ==> signal.aborted) && (old(offContract) ==> offContract)
      ensures r.Threw? ==> MayThrow(r.error)
      ensures r.Done? && !offContract ==>
                && AtBoundary(P()) && P().owed == [] && P().lastPoll.None? && P().asked == [] && Synced()
                && |P().turns| == |old(P()).turns| + 1
                && (if r.value.ended then MayEnd(P())
                    else RestingWith(P(), []) && Last(P()).wantsMore == r.value.hasMoreToolCalls)
    {
      hide Run, Legal, Excused, WithdrawnFrom, ThrownIn;
      hide Observed, PolledFrom, AgentFollows, QueuesFollow, Transcript, Terminates;
      ghost var before := Spoken(P());
      var message :- StreamAssistantResponse();
      newMessages := newMessages + [message];
      assert !offContract ==> Spoken(P()) == before + [message];
      if message.stopReason == Error || message.stopReason == Aborted {
        var _ :- CloseTurn(message, []);
        return Done(TurnOutcome(true, false));
      }
      var executed :- ExecuteRequested(message);
      var _ :- CloseTurn(message, executed.messages);
      return Done(TurnOutcome(signal.aborted, !executed.terminate));
    }

    method TakeTurn(firstTurn: bool, pending: seq<AgentMessage>) returns (r: Awaited<TurnOutcome>)
      requires Valid()
      requires !offContract ==> TurnReady(P(), firstTurn, pending) && SteeringAsked(P()) && Synced()
      requires !firstTurn ==> !signal.aborted
      modifies this`context, this`newMessages, this`trace, this`offContract, signal`aborted
      modifies agent`messages, agent`streamingMessage, agent`pendingToolCalls, agent`errorMessage
      ensures Valid() && (old(signal.aborted) ==> signal.aborted) && (old(offContract) ==> offContract)
      ensures r.Threw? ==> MayThrow(r.error)
      ensures r.Done? && !offContract ==>
                && AtBoundary(P()) && P().owed == [] && P().lastPoll.None? && P().asked == [] && Synced()
                && |P().turns| == |old(P()).turns| + 1
                && (if r.value.ended then MayEnd(P())
                    else RestingWith(P(), []) && Last(P()).wantsMore == r.value.hasMoreToolCalls)
    {
      hide Run, Legal, Excused, WithdrawnFrom, ThrownIn;
      hide Observed, PolledFrom, AgentFollows, QueuesFollow, Transcript;
      if !firstTurn {
        var _ :- Emit(Emitted(TurnStart));
      }
      var _ :- InjectPending(pending);
      r := RespondAndExecute();
    }

    /** After a turn: the stop hooks, then steering; a non-empty steering batch owns the boundary. */
    method AfterTurn() returns (r: Awaited<Boundary>)
      requires Valid()
      requires !offContract ==> RestingWith(P(), []) && P().lastPoll.None? && P().asked == []
      modifies this`trace, this`skipInitialSteeringPoll, agent.steeringQueue, agent.followUpQueue, signal`aborted
      ensures Valid() && (old(signal.aborted) ==> signal.aborted)
      ensures r.Threw? ==> MayThrow(r.error)
      ensures old(agent.steeringQueue.accepted) <= agent.steeringQueue.accepted
      ensures old(agent.followUpQueue.accepted) <= agent.followUpQueue.accepted
      ensures r.Done? && !offContract ==>
                && AtBoundary(P()) && P().turns == old(P()).turns && Spoken(P()) == old(Spoken(P()))
                && (if r.value.EndRun? then MayEnd(P())
                    else RestingWith(P(), r.value.pending)
                         && (r.value.pending == [] ==> AskedBeforeTurn(P())))
    {
      hide Run, Legal, Excused, WithdrawnFrom, ThrownIn;
      hide Observed, PolledFrom, AgentFollows, QueuesFollow, Flatten, Accept, Next, Reduce, Transcript;
      var shouldStop := ShouldStopAfterTurn();
      var shouldStopResult :- SettlePostTurn(shouldStop, signal.aborted);
      if shouldStopResult.AbortedPostTurn? || shouldStopResult.value {
        return Done(EndRun);
      }
      var stopsBeforePoll :- ShouldStopBeforeTurn();
      if stopsBeforePoll {
        return Done(EndRun);
      }
      var steering := PollMessagesUnlessAborted(Steering);
      var steeringMessagesResult :- SettlePostTurn(steering, signal.aborted);
      if steeringMessagesResult.AbortedPostTurn? {
        return Done(EndRun);
      }
      var pending := steeringMessagesResult.value;
      if |pending| == 0 {
        var stopsBeforeTurn :- ShouldStopBeforeTurn();
        if stopsBeforeTurn {
          return Done(EndRun);
        }
      }
      return Done(GoOn(pending));
    }

    /** With nothing left to do: follow-ups, then continuations, a stop hook before each. */
    method WhenIdle() returns (r: Awaited<Boundary>)
      requires Valid()
      requires !offContract ==>
                 RestingWith(P(), []) && !Last(P()).wantsMore && AskedBeforeTurn(P())
      modifies this`trace, this`skipInitialSteeringPoll, agent.steeringQueue, agent.followUpQueue, signal`aborted
      ensures Valid() && (old(signal.aborted) ==> signal.aborted)
      ensures r.Threw? ==> MayThrow(r.error)
      ensures old(agent.steeringQueue.accepted) <= agent.steeringQueue.accepted
      ensures old(agent.followUpQueue.accepted) <= agent.followUpQueue.accepted
      ensures r.Done? && !offContract ==>
                && AtBoundary(P()) && Spoken(P()) == old(Spoken(P())) && P().turns == old(P()).turns
                && (if r.value.EndRun? then MayEnd(P()) else RestingWith(P(), r.value.pending))
      ensures r.Done? && r.value.GoOn? ==> r.value.pending != []
    {
      hide Run, Legal, Excused, WithdrawnFrom, ThrownIn;
      hide Observed, PolledFrom, AgentFollows, QueuesFollow, Flatten, Accept, Next, Reduce, Transcript;
      var stopsBeforeFollowUps :- ShouldStopBeforeTurn();
      if stopsBeforeFollowUps {
        return Done(EndRun);
      }
      var followUps := PollMessagesUnlessAborted(FollowUp);
      var followUpMessagesResult :- SettlePostTurn(followUps, signal.aborted);
      if followUpMessagesResult.AbortedPostTurn? {
        return Done(EndRun);
      }
      if |followUpMessagesResult.value| > 0 {
        return Done(GoOn(followUpMessagesResult.value));
      }
      var stopsBeforeContinuation :- ShouldStopBeforeTurn();
      if stopsBeforeContinuation {
        return Done(EndRun);
      }
      var continuations := PollContinuation();
      var continuationMessagesResult :- SettlePostTurn(continuations, signal.aborted);
      if continuationMessagesResult.AbortedPostTurn? || |continuationMessagesResult.value| == 0 {
        return Done(EndRun);
      }
      return Done(GoOn(continuationMessagesResult.value));
    }

    method EndOfRun() returns (r: Awaited<RunEnd>)
      requires Valid()
      requires !offContract ==> AtBoundary(P()) && MayEnd(P()) && Synced()
      modifies this`trace, signal`aborted
      modifies agent`messages, agent`streamingMessage, agent`pendingToolCalls, agent`errorMessage
      ensures Valid() && (old(signal.aborted) ==> signal.aborted)
      ensures r.Threw? ==> MayThrow(r.error)
      ensures r.Done? ==> r.value == RunFinished
      ensures r.Done? && !offContract ==> P() == old(P()).(status := Closed, aborted := signal.aborted) && Synced()
    {
      hide Run, Legal, Excused, WithdrawnFrom, ThrownIn;
      hide Observed, PolledFrom, AgentFollows, QueuesFollow, Transcript;
      var _ :- Emit(Emitted(AgentEnd(newMessages)));
      return Done(RunFinished);
    }

    /** The poll before the first turn; its messages join the prompts. */
    method PollInitialSteering() returns (r: Awaited<seq<AgentMessage>>)
      requires Valid()
      requires !offContract ==> TurnReady(P(), true, []) && P().lastPoll.None? && Synced()
      modifies this`trace, this`skipInitialSteeringPoll, agent.steeringQueue, agent.followUpQueue, signal`aborted
      ensures Valid() && (old(signal.aborted) ==> signal.aborted)
      ensures r.Threw? ==> MayThrow(r.error)
      ensures old(agent.steeringQueue.accepted) <= agent.steeringQueue.accepted
      ensures old(agent.followUpQueue.accepted) <= agent.followUpQueue.accepted
      ensures r.Done? && !offContract ==>
                TurnReady(P(), true, r.value) && SteeringAsked(P()) && Synced() && P().turns == old(P()).turns
    {
      hide Run, Legal, Excused, WithdrawnFrom, ThrownIn;
      hide Observed, PolledFrom, AgentFollows, QueuesFollow, Transcript;
      r := PollMessagesUnlessAborted(Steering);
    }

    /** One iteration of the inner loop: a turn and the boundary behind it. */
    method TurnAndBoundary(firstTurn: bool, pending: seq<AgentMessage>) returns (r: Awaited<LoopStep>)
      requires Valid()
      requires !offContract ==> TurnReady(P(), firstTurn, pending) && SteeringAsked(P()) && Synced()
      modifies this`context, this`newMessages, this`trace, this`offContract, this`skipInitialSteeringPoll
      modifies agent.steeringQueue, agent.followUpQueue, signal`aborted
      modifies agent`messages, agent`streamingMessage, agent`pendingToolCalls, agent`errorMessage
      ensures Valid() && (old(offContract) ==> offContract)
      ensures r.Threw? ==> MayThrow(r.error)
      ensures old(agent.steeringQueue.accepted) <= agent.steeringQueue.accepted
      ensures old(agent.followUpQueue.accepted) <= agent.followUpQueue.accepted
      ensures r.Done? && !offContract ==>
                Synced() && if r.value.LoopEnded? then P().status.Closed? && !P().dead
                            else Looping(P(), r.value.hasMoreToolCalls, r.value.pending)
                                 && |P().turns| == |old(P()).turns| + 1
    {
      hide Run, Legal, Excused, WithdrawnFrom, ThrownIn;
      hide Observed, PolledFrom, AgentFollows, QueuesFollow, Flatten, Accept, Next, Reduce, Transcript, Spoken;
      if signal.aborted {
        return Threw(ABORT_ERROR);
      }
      var turn :- TakeTurn(firstTurn, pending);
      if turn.ended {
        var _ :- EndOfRun();
        return Done(LoopEnded);
      }
      var boundary :- AfterTurn();
      if boundary.EndRun? {
        var _ :- EndOfRun();
        return Done(LoopEnded);
      }
      return Done(LoopGoesOn(turn.hasMoreToolCalls, boundary.pending));
    }

    /** `turnLimit` only bounds how many turns are watched; the run itself has no such limit. */
    method RunLoop(turnLimit: nat) returns (r: Awaited<RunEnd>)
      requires Valid()
      requires !offContract ==> TurnReady(P(), true, []) && P().lastPoll.None? && Synced()
      modifies this`context, this`newMessages, this`trace, this`offContract, this`skipInitialSteeringPoll
      modifies agent.steeringQueue, agent.followUpQueue, signal`aborted
      modifies agent`messages, agent`streamingMessage, agent`pendingToolCalls, agent`errorMessage
      ensures Valid() && (old(offContract) ==> offContract)
      ensures r.Threw? ==> MayThrow(r.error)
      ensures old(agent.steeringQueue.accepted) <= agent.steeringQueue.accepted
      ensures old(agent.followUpQueue.accepted) <= agent.followUpQueue.accepted
      ensures r.Done? && !offContract ==>
                && Synced() && !P().dead && (P().status.Closed? <==> r.value.RunFinished?)
                && (r.value.StillRunning? ==> |P().turns| == |old(P()).turns| + turnLimit)
    {
      hide Run, Legal, Excused, WithdrawnFrom, ThrownIn;
      hide Observed, PolledFrom, AgentFollows, QueuesFollow, Flatten, Accept, Next, Reduce, Transcript, Spoken;
      var firstTurn := true;
      var pendingMessages :- PollInitialSteering();
      var turnsLeft: nat := turnLimit;
      while true
        invariant Valid() && (old(offContract) ==> offContract)
        invariant old(agent.steeringQueue.accepted) <= agent.steeringQueue.accepted
        invariant old(agent.followUpQueue.accepted) <= agent.followUpQueue.accepted
        invariant turnsLeft <= turnLimit
        invariant !offContract ==>
                    && TurnReady(P(), firstTurn, pendingMessages) && SteeringAsked(P()) && Synced()
                    && |P().turns| == |old(P()).turns| + turnLimit - turnsLeft
        decreases turnsLeft
      {
        if signal.aborted {
          return Threw(ABORT_ERROR);
        }
        var hasMoreToolCalls := true;
        ghost var turnsBefore := turnsLeft;
        while hasMoreToolCalls || |pendingMessages| > 0
          invariant Valid() && (old(offContract) ==> offContract)
          invariant old(agent.steeringQueue.accepted) <= agent.steeringQueue.accepted
          invariant old(agent.followUpQueue.accepted) <= agent.followUpQueue.accepted
          invariant turnsLeft == turnsBefore ==> hasMoreToolCalls
          invariant turnsLeft <= turnsBefore
          invariant !offContract ==>
                      && Synced() && |P().turns| == |old(P()).turns| + turnLimit - turnsLeft
                      && if turnsLeft == turnsBefore then TurnReady(P(), firstTurn, pendingMessages)
                      && SteeringAsked(P())
                         else !firstTurn && Looping(P(), hasMoreToolCalls, pendingMessages)
          decreases turnsLeft
        {
          if turnsLeft == 0 {
            return Done(StillRunning);
          }
          turnsLeft := turnsLeft - 1;
          var step :- TurnAndBoundary(firstTurn, pendingMessages);
          firstTurn := false;
          if step.LoopEnded? {
            return Done(RunFinished);
          }
          hasMoreToolCalls, pendingMessages := step.hasMoreToolCalls, step.pending;
        }
        var boundary :- WhenIdle();
        if boundary.EndRun? {
          r := EndOfRun();
          return;
        }
        pendingMessages := boundary.pending;
      }
    }

    /** Every run opens with `agent_start` and the first `turn_start`. */
    method OpenRun() returns (r: Awaited<()>)
      requires Valid() && !offContract && P() == Initial(setup)
      modifies this`trace, signal`aborted
      modifies agent`messages, agent`streamingMessage, agent`pendingToolCalls, agent`errorMessage
      ensures Valid() && !offContract
      ensures r.Threw? ==> MayThrow(r.error)
      ensures r.Done? ==> P() == Initial(setup).(status := InTurn, aborted := signal.aborted)
    {
      hide Run, Legal, Excused, WithdrawnFrom, ThrownIn;
      hide Observed, PolledFrom, AgentFollows, QueuesFollow, Transcript;
      var _ :- Emit(Emitted(AgentStart));
      r := Emit(Emitted(TurnStart));
    }

    method AnnouncePrompts(prompts: seq<AgentMessage>) returns (r: Awaited<()>)
      requires Valid() && !offContract
      requires P().status.InTurn? && Fresh(P()) && P().said == [] && P().owed == prompts
      modifies this`trace, signal`aborted
      modifies agent`messages, agent`streamingMessage, agent`pendingToolCalls, agent`errorMessage
      ensures Valid() && !offContract && (old(signal.aborted) ==> signal.aborted)
      ensures r.Threw? ==> MayThrow(r.error)
      ensures r.Done? ==> P() == old(P()).(said := prompts, aborted := signal.aborted)
    {
      hide Run, Legal, Excused, WithdrawnFrom, ThrownIn;
      hide Observed, PolledFrom, AgentFollows, QueuesFollow, Transcript;
      ghost var before := P();
      for i := 0 to |prompts|
        invariant Valid() && !offContract && (old(signal.aborted) ==> signal.aborted)
        invariant P() == before.(said := prompts[..i], aborted := signal.aborted)
      {
        var _ :- Announce(prompts[i]);
      }
      assert prompts[..|prompts|] == prompts;
      return Done(());
    }

    /** A run that starts with prompts. */
    method RunAgentLoop(turnLimit: nat) returns (r: Awaited<RunEnd>)
      requires Valid() && trace == [] && !offContract && !signal.aborted
      requires context == setup.base + setup.prompts && newMessages == setup.prompts
      modifies this`context, this`newMessages, this`trace, this`offContract, this`skipInitialSteeringPoll
      modifies agent.steeringQueue, agent.followUpQueue, signal`aborted
      modifies agent`messages, agent`streamingMessage, agent`pendingToolCalls, agent`errorMessage
      ensures Valid()
      ensures r.Threw? ==> MayThrow(r.error)
      ensures old(agent.steeringQueue.accepted) <= agent.steeringQueue.accepted
      ensures old(agent.followUpQueue.accepted) <= agent.followUpQueue.accepted
      ensures r.Done? && !offContract ==>
                && Synced() && !P().dead && (P().status.Closed? <==> r.value.RunFinished?)
                && (r.value.StillRunning? ==> |P().turns| == turnLimit)
    {
      NothingRun(setup);
      hide Run, Legal, Excused, WithdrawnFrom, ThrownIn;
      hide Observed, PolledFrom, AgentFollows, QueuesFollow, Transcript, Spoken, Accept, Next;
      var _ :- OpenRun();
      var _ :- AnnouncePrompts(newMessages);
      FirstTurnReady(setup, P());
      r := RunLoop(turnLimit);
    }

    /** A run that continues from the context as it is. */
    method RunAgentLoopContinue(turnLimit: nat) returns (r: Awaited<RunEnd>)
      requires Valid() && trace == [] && !offContract && !signal.aborted
      requires setup.prompts == [] && context == setup.base && newMessages == []
      modifies this`context, this`newMessages, this`trace, this`offContract, this`skipInitialSteeringPoll
      modifies agent.steeringQueue, agent.followUpQueue, signal`aborted
      modifies agent`messages, agent`streamingMessage, agent`pendingToolCalls, agent`errorMessage
      ensures Valid()
      ensures r.Threw? ==> MayThrow(r.error) || RefusedWith(old(context), r.error)
      ensures old(agent.steeringQueue.accepted) <= agent.steeringQueue.accepted
      ensures old(agent.followUpQueue.accepted) <= agent.followUpQueue.accepted
      ensures old(context) == [] || old(context)[|old(context)| - 1].AssistantMessage? ==>
                r.Threw? && trace == [] && RefusedWith(old(context), r.error)
      ensures r.Done? && !offContract ==>
                && Synced() && !P().dead && (P().status.Closed? <==> r.value.RunFinished?)
                && (r.value.StillRunning? ==> |P().turns| == turnLimit)
    {
      hide Run, Legal, Excused, WithdrawnFrom, ThrownIn;
      hide Observed, PolledFrom, AgentFollows, QueuesFollow;
      hide Spoken, Transcript;
      if |context| == 0 {
        return Threw(Failure(false, "Cannot continue: no messages in context"));
      }
      if context[|context| - 1].AssistantMessage? {
        return Threw(Failure(false, "Cannot continue from message role: assistant"));
      }
      r := RunFromContext(turnLimit);
    }

    method RunFromContext(turnLimit: nat) returns (r: Awaited<RunEnd>)
      requires Valid() && trace == [] && !offContract && !signal.aborted
      requires setup.prompts == [] && context == setup.base && newMessages == []
      modifies this`context, this`newMessages, this`trace, this`offContract, this`skipInitialSteeringPoll
      modifies agent.steeringQueue, agent.followUpQueue, signal`aborted
      modifies agent`messages, agent`streamingMessage, agent`pendingToolCalls, agent`errorMessage
      ensures Valid()
      ensures r.Threw? ==> MayThrow(r.error)
      ensures old(agent.steeringQueue.accepted) <= agent.steeringQueue.accepted
      ensures old(agent.followUpQueue.accepted) <= agent.followUpQueue.accepted
      ensures r.Done? && !offContract ==>
                && Synced() && !P().dead && (P().status.Closed? <==> r.value.RunFinished?)
                && (r.value.StillRunning? ==> |P().turns| == turnLimit)
    {
      NothingRun(setup);
      hide Run, Legal, Excused, WithdrawnFrom, ThrownIn;
      hide Observed, PolledFrom, AgentFollows, QueuesFollow, Transcript, Spoken, Accept, Next;
      var _ :- OpenRun();
      FirstTurnReady(setup, P());
      r := RunLoop(turnLimit);
    }
  }
}
