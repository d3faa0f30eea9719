/** Runs of the agent from the outside: at most one at a time, and every one of them ends idle. */
module AgentLifecycle {
  import opened Wrappers
  import opened Outcomes
  import opened AgentTypes
  import opened LoopProtocol
  import opened AgentState
  import opened AgentLoop
  import opened LoopTheorems

  /** A run is refused while another is active; `StillGoing` means the observation window closed before it ended. */
  datatype RunReport = Busy | StillGoing | Returned | Failed(error: Failure)

  datatype ContinueReport = RefusedBusy | NothingToContinue | Ran(report: RunReport)

  /** What a caller of the agent may rely on between calls: without an active run it is idle. */
  ghost predicate Ready(agent: Agent)
    reads agent, agent.steeringQueue, agent.followUpQueue
  {
    agent.Valid() && (agent.activeRun == null ==> agent.Idle())
  }

  /** A run that threw is turned into one failed assistant message. */
  method HandleRunFailure(agent: Agent, error: Failure, aborted: bool)
    modifies agent`messages, agent`streamingMessage, agent`pendingToolCalls, agent`errorMessage
    ensures agent.messages == old(agent.messages)
                              + [AssistantMessage("", [], if aborted then Aborted else Error, Some(error.message))]
    ensures agent.messages[..|agent.messages| - 1] == old(agent.messages)
    ensures agent.errorMessage == Some(error.message) && agent.streamingMessage.None?
  {
    var failureMessage := AssistantMessage("", [], if aborted then Aborted else Error, Some(error.message));
    agent.errorMessage := failureMessage.errorMessage;
    agent.ApplyEvent(MessageStart(failureMessage));
    agent.ApplyEvent(MessageEnd(failureMessage));
    agent.ApplyEvent(AgentEnd([failureMessage]));
  }

  method FinishRun(agent: Agent)
    requires agent.activeRun != null
    modifies agent`isStreaming, agent`streamingMessage, agent`pendingToolCalls, agent`activeRun,
             agent.activeRun`resolved
    ensures agent.Idle() && old(agent.activeRun).resolved
  {
    agent.isStreaming := false;
    agent.streamingMessage := None;
    agent.pendingToolCalls := {};
    agent.activeRun.resolved := true;
    agent.activeRun := null;
  }

  /**
   * What a run lets out: a legal trace, unless a stream or a listener visibly broke its contract; and the
   * agent's transcript is the old one plus what listeners saw.
   */
  ghost predicate Seen(s: Setup, trace: seq<Obs>, before: seq<AgentMessage>, after: seq<AgentMessage>) {
    && (Legal(s, trace) || StartedTwice(trace) || RejectedWhileAborted(trace))
    && (Legal(s, trace) ==> after == before + MessageEnds(trace))
  }

  /** What a run leaves behind. `trace` is everything it let out. */
  ghost predicate Settled(s: Setup, trace: seq<Obs>, report: RunReport, prompts: Option<seq<AgentMessage>>,
                          turnLimit: nat, before: seq<AgentMessage>, after: seq<AgentMessage>)
  {
    && s.base == before && s.prompts == (if prompts.Some? then prompts.value else [])
    && (report.Returned? || report.StillGoing? ==> Seen(s, trace, before, after))
    && (report.Returned? && Legal(s, trace) ==> Run(s, trace).status.Closed? && !Run(s, trace).dead)
    && (report.StillGoing? && Legal(s, trace) ==> |Run(s, trace).turns| == turnLimit)
    && (report.Failed? ==>
          && (|| (AbortSignalled in trace && report.error == ABORT_ERROR)
              || ThrownIn(trace, report.error)
              || (prompts.None? && RefusedWith(before, report.error)))
          && |after| > 0
          && after[|after| - 1] == AssistantMessage("", [], if AbortSignalled in trace then Aborted else Error,
                                                    Some(report.error.message))
          && Seen(s, trace, before, after[..|after| - 1]))
  }

  /**
   * A queue has given up what a run polled from it, a whole batch at a time in its one-at-a-time mode, lost
   * what others withdrew, and forgotten nothing.
   */
  ghost predicate GaveUp(queue: PendingMessageQueue, source: Source, trace: seq<Obs>, taken: seq<AgentMessage>,
                         dropped: seq<AgentMessage>, accepted: seq<AgentMessage>)
    reads queue
  {
    && queue.taken == taken + PolledFrom(trace, source)
    && queue.dropped == dropped + WithdrawnFrom(trace, source)
    && accepted <= queue.accepted
    && WholeBatches(trace, source, queue.history)
  }

  /** The surroundings of a run: the agent as it is when the run begins. */
  function SetupOf(agent: Agent, prompts: Option<seq<AgentMessage>>): Setup
    reads agent
  {
    Setup(agent.messages, if prompts.Some? then prompts.value else [], agent.toolExecution, agent.tools,
          agent.toolHooks)
  }

  /** The executor of a run: a fresh loop over the agent's transcript, watched by the agent. */
  method ExecuteLoop(agent: Agent, run: ActiveRun, prompts: Option<seq<AgentMessage>>, skipInitialSteeringPoll: bool,
                     turnLimit: nat)
    returns (r: Awaited<RunEnd>, ghost s: Setup, ghost trace: seq<Obs>)
    requires agent.Valid() && agent.activeRun == run && !run.aborted && agent.streamingMessage.None?
    requires agent.pendingToolCalls == {}
    modifies agent`messages, agent`streamingMessage, agent`pendingToolCalls, agent`errorMessage
    modifies agent.steeringQueue, agent.followUpQueue, run`aborted
    ensures agent.Valid()
    ensures s == old(SetupOf(agent, prompts)) && SkipsFit(trace, skipInitialSteeringPoll)
    ensures Seen(s, trace, old(agent.messages), agent.messages)
    ensures r.Done? && Legal(s, trace) ==>
              !Run(s, trace).dead && (Run(s, trace).status.Closed? <==> r.value.RunFinished?)
    ensures r == Done(StillRunning) && Legal(s, trace) ==> |Run(s, trace).turns| == turnLimit
    ensures r.Threw? ==>
              || (run.aborted && r.error == ABORT_ERROR)
              || ThrownIn(trace, r.error)
              || (prompts.None? && RefusedWith(old(agent.messages), r.error))
    ensures run.aborted <==> AbortSignalled in trace
    ensures GaveUp(agent.steeringQueue, Steering, trace, old(agent.steeringQueue.taken),
                   old(agent.steeringQueue.dropped),
                   old(agent.steeringQueue.accepted))
    ensures GaveUp(agent.followUpQueue, FollowUp, trace, old(agent.followUpQueue.taken),
                   old(agent.followUpQueue.dropped),
                   old(agent.followUpQueue.accepted))
  {
    hide Run, Legal, Excused, ThrownIn, Observed, PolledFrom, WithdrawnFrom, MessageEnds, Spoken, Flatten, SkipsFit,
         RefusedWith, Transcript;
    var loop := new Loop(agent, run, if prompts.Some? then prompts.value else [], skipInitialSteeringPoll);
    ghost var view := agent.View();
    if prompts.Some? {
      r := loop.RunAgentLoop(turnLimit);
    } else {
      r := loop.RunAgentLoopContinue(turnLimit);
    }
    s, trace := loop.setup, loop.trace;
    AbortRemembered(s, trace);
    if Legal(s, trace) {
      LegalIsNotExcused(s, trace);
      AgentRefinesProtocol(s, view, trace);
      TranscriptIsMessageEnds(s, trace);
    } else {
      ExcusesAreVisible(s, trace);
    }
  }

  /**
   * `runWithLifecycle`: whatever the run does, once it has ended the agent is idle, the idle promise
   * is resolved, and the transcript is the old one plus what the listeners saw (and, after a
   * failure, one failed message). Both queues gave up exactly what the run polled from them.
   */
  method RunWithLifecycle(agent: Agent, prompts: Option<seq<AgentMessage>>, skipInitialSteeringPoll: bool,
                          turnLimit: nat)
    returns (report: RunReport, ghost s: Setup, ghost trace: seq<Obs>)
    requires Ready(agent)
    modifies agent, agent.steeringQueue, agent.followUpQueue
    ensures Ready(agent)
    ensures report.Busy? <==> old(agent.activeRun) != null
    ensures report.Busy? ==> unchanged(agent) && unchanged(agent.steeringQueue) && unchanged(agent.followUpQueue)
    ensures report.Returned? || report.Failed? ==> agent.Idle()
    ensures report.StillGoing? ==> agent.activeRun != null
    ensures !report.Busy? ==> Settled(s, trace, report, prompts, turnLimit, old(agent.messages), agent.messages)
    ensures !report.Busy? ==> s == old(SetupOf(agent, prompts)) && SkipsFit(trace, skipInitialSteeringPoll)
    ensures !report.Busy? ==>
              && GaveUp(agent.steeringQueue, Steering, trace, old(agent.steeringQueue.taken),
                        old(agent.steeringQueue.dropped), old(agent.steeringQueue.accepted))
              && GaveUp(agent.followUpQueue, FollowUp, trace, old(agent.followUpQueue.taken),
                        old(agent.followUpQueue.dropped), old(agent.followUpQueue.accepted))
    ensures report.Failed? ==> agent.errorMessage == Some(report.error.message)
  {
    hide Run, Legal, Seen, ThrownIn, GaveUp, RefusedWith, SkipsFit, Accounted, Flatten;
    s, trace := Setup([], [], Sequential, [], ToolHooks(false, false)), [];
    if agent.activeRun != null {
      return Busy, s, trace;
    }
    var run := new ActiveRun();
    agent.activeRun := run;
    agent.isStreaming := true;
    agent.streamingMessage := None;
    agent.errorMessage := None;

    var r;
    r, s, trace := ExecuteLoop(agent, run, prompts, skipInitialSteeringPoll, turnLimit);
    if r.Done? && r.value.StillRunning? {
      return StillGoing, s, trace;
    }
    report := EndRun(agent, r);
  }

  /** The end of a run that was not left going: its failure is recorded, if it has one, and the agent is idle. */
  method EndRun(agent: Agent, r: Awaited<RunEnd>) returns (report: RunReport)
    requires agent.activeRun != null
    modifies agent`isStreaming, agent`streamingMessage, agent`pendingToolCalls, agent`activeRun,
             agent.activeRun`resolved
    modifies agent`messages, agent`errorMessage
    ensures agent.Idle() && old(agent.activeRun).resolved
    ensures report == if r.Threw? then Failed(r.error) else Returned
    ensures r.Done? ==> agent.messages == old(agent.messages)
    ensures r.Threw? ==>
              && agent.messages == old(agent.messages)
                                   + [AssistantMessage("", [], if old(agent.activeRun.aborted) then Aborted else Error,
                                                       Some(r.error.message))]
              && agent.messages[..|agent.messages| - 1] == old(agent.messages)
              && agent.errorMessage == Some(r.error.message)
  {
    if r.Threw? {
      HandleRunFailure(agent, r.error, agent.activeRun.aborted);
    }
    FinishRun(agent);
    report := if r.Threw? then Failed(r.error) else Returned;
  }

  /** A run that kept the contracts, was not aborted and returned. */
  ghost predicate CleanRun(s: Setup, trace: seq<Obs>, report: RunReport) {
    report.Returned? && Legal(s, trace) && !Run(s, trace).aborted
  }

  /**
   * Conservation over such a run. The messages injected into its turns are the prompts and everything
   * polled, in the order of the polls; they and all other messages of the turns were added to the
   * agent's transcript.
   */
  ghost predicate Delivered(s: Setup, trace: seq<Obs>, before: seq<AgentMessage>, after: seq<AgentMessage>) {
    var turns := Run(s, trace).turns;
    && Injected(turns) == s.prompts + Untagged(PolledTagged(trace))
    && after == before + Transcript(turns)
    && s.prompts <= Transcript(turns)
  }

  /**
   * Every message a queue ever accepted was taken before the run, is in the part of the transcript that
   * the run added, still waits, or was withdrawn by others; all in the order in which they were queued.
   * Nothing else has left the queue during the run.
   */
  ghost predicate Conserved(queue: PendingMessageQueue, source: Source, trace: seq<Obs>, taken: seq<AgentMessage>,
                            dropped: seq<AgentMessage>, accepted: seq<AgentMessage>, added: seq<AgentMessage>)
    reads queue
  {
    var delivered := PolledFrom(trace, source);
    && accepted <= queue.accepted
    && Within(delivered, added)
    && Accounted(queue.accepted, taken + delivered + Flatten(queue.batches), queue.dropped)
    && queue.dropped == dropped + WithdrawnFrom(trace, source)
  }

  lemma QueueConserves(queue: PendingMessageQueue, source: Source, s: Setup, trace: seq<Obs>, taken: seq<AgentMessage>,
                       dropped: seq<AgentMessage>, accepted: seq<AgentMessage>)
    requires queue.Valid() && GaveUp(queue, source, trace, taken, dropped, accepted)
    requires Legal(s, trace) && Run(s, trace).status.Closed? && !Run(s, trace).aborted
    ensures Conserved(queue, source, trace, taken, dropped, accepted, Transcript(Run(s, trace).turns))
  {
    hide Run, Legal, Transcript, Within, PolledFrom, WithdrawnFrom;
    DeliveredInOrder(s, trace, source);
  }

  /** With nobody withdrawing messages, now or before, a queue's history is plain: taken, delivered, waiting. */
  lemma NothingWithdrawn(queue: PendingMessageQueue, source: Source, trace: seq<Obs>, taken: seq<AgentMessage>,
                         accepted: seq<AgentMessage>, added: seq<AgentMessage>)
    requires Conserved(queue, source, trace, taken, [], accepted, added) && WithdrawnFrom(trace, source) == []
    ensures queue.accepted == taken + PolledFrom(trace, source) + Flatten(queue.batches)
  {
    hide PolledFrom, WithdrawnFrom, Accounted, Within;
    NothingDropped(queue.accepted, taken + PolledFrom(trace, source) + Flatten(queue.batches));
  }

  /** `runPromptMessages` and `runContinuation`: a run of the loop, with conservation where it is promised. */
  method RunConserving(agent: Agent, prompts: Option<seq<AgentMessage>>, skipInitialSteeringPoll: bool, turnLimit: nat)
    returns (report: RunReport, ghost s: Setup, ghost trace: seq<Obs>)
    requires Ready(agent)
    modifies agent, agent.steeringQueue, agent.followUpQueue
    ensures Ready(agent)
    ensures report.Busy? <==> old(agent.activeRun) != null
    ensures report.Returned? || report.Failed? ==> agent.Idle()
    ensures report.StillGoing? ==> agent.activeRun != null
    ensures !report.Busy? ==> Settled(s, trace, report, prompts, turnLimit, old(agent.messages), agent.messages)
    ensures !report.Busy? ==> s == old(SetupOf(agent, prompts)) && SkipsFit(trace, skipInitialSteeringPoll)
    ensures !report.Busy? ==>
              && GaveUp(agent.steeringQueue, Steering, trace, old(agent.steeringQueue.taken),
                        old(agent.steeringQueue.dropped), old(agent.steeringQueue.accepted))
              && GaveUp(agent.followUpQueue, FollowUp, trace, old(agent.followUpQueue.taken),
                        old(agent.followUpQueue.dropped), old(agent.followUpQueue.accepted))
    ensures CleanRun(s, trace, report) ==>
              && Delivered(s, trace, old(agent.messages), agent.messages)
              && Conserved(agent.steeringQueue, Steering, trace, old(agent.steeringQueue.taken),
                           old(agent.steeringQueue.dropped), old(agent.steeringQueue.accepted),
                           agent.messages[|old(agent.messages)|..])
              && Conserved(agent.followUpQueue, FollowUp, trace, old(agent.followUpQueue.taken),
                           old(agent.followUpQueue.dropped), old(agent.followUpQueue.accepted),
                           agent.messages[|old(agent.messages)|..])
  {
    hide Run, Legal, GaveUp, Conserved, Transcript, Injected, Untagged, PolledTagged, SkipsFit;
    report, s, trace := RunWithLifecycle(agent, prompts, skipInitialSteeringPoll, turnLimit);
    if CleanRun(s, trace, report) {
      PolledIsDelivered(s, trace, Steering);
      TranscriptStartsWithPrompts(s, trace);
      QueueConserves(agent.steeringQueue, Steering, s, trace, old(agent.steeringQueue.taken),
                     old(agent.steeringQueue.dropped), old(agent.steeringQueue.accepted));
      QueueConserves(agent.followUpQueue, FollowUp, s, trace, old(agent.followUpQueue.taken),
                     old(agent.followUpQueue.dropped), old(agent.followUpQueue.accepted));
      assert agent.messages[|old(agent.messages)|..] == Transcript(Run(s, trace).turns);
    }
  }

  /** `Agent.prompt`. */
  method Prompt(agent: Agent, messages: seq<AgentMessage>, turnLimit: nat)
    returns (report: RunReport, ghost s: Setup, ghost trace: seq<Obs>)
    requires Ready(agent)
    modifies agent, agent.steeringQueue, agent.followUpQueue
    ensures Ready(agent)
    ensures report.Busy? <==> old(agent.activeRun) != null
    ensures report.Returned? || report.Failed? ==> agent.Idle()
    ensures !report.Busy? ==> Settled(s, trace, report, Some(messages), turnLimit, old(agent.messages), agent.messages)
    ensures !report.Busy? ==> s == old(SetupOf(agent, Some(messages))) && SkipsFit(trace, false)
    ensures !report.Busy? ==>
              && GaveUp(agent.steeringQueue, Steering, trace, old(agent.steeringQueue.taken),
                        old(agent.steeringQueue.dropped), old(agent.steeringQueue.accepted))
              && GaveUp(agent.followUpQueue, FollowUp, trace, old(agent.followUpQueue.taken),
                        old(agent.followUpQueue.dropped), old(agent.followUpQueue.accepted))
    ensures CleanRun(s, trace, report) ==>
              && Delivered(s, trace, old(agent.messages), agent.messages)
              && Conserved(agent.steeringQueue, Steering, trace, old(agent.steeringQueue.taken),
                           old(agent.steeringQueue.dropped), old(agent.steeringQueue.accepted),
                           agent.messages[|old(agent.messages)|..])
              && Conserved(agent.followUpQueue, FollowUp, trace, old(agent.followUpQueue.taken),
                           old(agent.followUpQueue.dropped), old(agent.followUpQueue.accepted),
                           agent.messages[|old(agent.messages)|..])
  {
    hide CleanRun, Conserved, Delivered, GaveUp, Settled, SkipsFit;
    report, s, trace := RunConserving(agent, Some(messages), false, turnLimit);
  }

  /** The messages a continuation starts with: queued steering first, then queued follow-ups. */
  method DrainForContinuation(agent: Agent)
    returns (fromSteering: seq<AgentMessage>, fromFollowUp: seq<AgentMessage>)
    requires Ready(agent) && agent.activeRun == null
    modifies agent.steeringQueue, agent.followUpQueue
    ensures Ready(agent)
    ensures fromSteering == HandsOut(old(agent.steeringQueue.mode), old(agent.steeringQueue.batches))
    ensures agent.steeringQueue.batches == LeftWaiting(old(agent.steeringQueue.mode), old(agent.steeringQueue.batches))
    ensures fromSteering == [] <==> old(agent.steeringQueue.batches) == []
    ensures fromSteering != [] ==>
              fromFollowUp == [] && agent.followUpQueue.batches == old(agent.followUpQueue.batches)
    ensures fromSteering == [] ==>
              && fromFollowUp == HandsOut(old(agent.followUpQueue.mode), old(agent.followUpQueue.batches))
              && agent.followUpQueue.batches ==
                 LeftWaiting(old(agent.followUpQueue.mode), old(agent.followUpQueue.batches))
              && (fromFollowUp == [] <==> old(agent.followUpQueue.batches) == [])
    ensures agent.steeringQueue.taken == old(agent.steeringQueue.taken) + fromSteering
    ensures agent.followUpQueue.taken == old(agent.followUpQueue.taken) + fromFollowUp
    ensures agent.steeringQueue.accepted == old(agent.steeringQueue.accepted)
    ensures agent.followUpQueue.accepted == old(agent.followUpQueue.accepted)
    ensures agent.steeringQueue.dropped == old(agent.steeringQueue.dropped)
    ensures agent.followUpQueue.dropped == old(agent.followUpQueue.dropped)
  {
    hide Accounted, Flatten, HandsOut, LeftWaiting;
    fromFollowUp := [];
    fromSteering := agent.steeringQueue.Drain();
    if fromSteering == [] {
      fromFollowUp := agent.followUpQueue.Drain();
    }
  }

  /**
   * `Agent.continue`: queued work is run as prompts when the transcript is empty, or ends in an
   * assistant or custom message; otherwise, and after a custom message without queued work, the
   * run continues from the transcript. With nothing queued it refuses the first two.
   */
  method Continue(agent: Agent, turnLimit: nat)
    returns (r: ContinueReport, ghost s: Setup, ghost trace: seq<Obs>,
             ghost fromSteering: seq<AgentMessage>, ghost fromFollowUp: seq<AgentMessage>)
    requires Ready(agent)
    modifies agent, agent.steeringQueue, agent.followUpQueue
    ensures Ready(agent)
    ensures r.RefusedBusy? <==> old(agent.activeRun) != null
    ensures r.RefusedBusy? ==> unchanged(agent) && unchanged(agent.steeringQueue) && unchanged(agent.followUpQueue)
    ensures r.NothingToContinue? <==>
              && old(agent.activeRun) == null
              && old(agent.steeringQueue.batches) == [] && old(agent.followUpQueue.batches) == []
              && (old(agent.messages) == [] || old(agent.messages)[|old(agent.messages)| - 1].AssistantMessage?)
    ensures r.NothingToContinue? ==> agent.Idle() && agent.messages == old(agent.messages)
    ensures r.Ran? && (r.report.Returned? || r.report.Failed?) ==> agent.Idle()
    ensures r.Ran? ==> !r.report.Busy?
    ensures var messages := old(agent.messages);
            var last := |messages| - 1;
            r.Ran? ==>
              if messages != [] && !messages[last].AssistantMessage? && !messages[last].CustomMessage?
              then fromSteering == [] && fromFollowUp == []
              else
              && fromSteering == HandsOut(old(agent.steeringQueue.mode), old(agent.steeringQueue.batches))
              && fromFollowUp == (if fromSteering != [] then []
                                  else HandsOut(old(agent.followUpQueue.mode), old(agent.followUpQueue.batches)))
    ensures r.Ran? ==>
              Settled(s, trace, r.report,
                      if fromSteering + fromFollowUp == [] then None else Some(fromSteering + fromFollowUp),
                      turnLimit, old(agent.messages), agent.messages)
    ensures r.Ran? ==>
              && s == old(SetupOf(agent, None)).(prompts := fromSteering + fromFollowUp)
              && SkipsFit(trace, fromSteering != [])
    ensures r.Ran? ==>
              && GaveUp(agent.steeringQueue, Steering, trace, old(agent.steeringQueue.taken) + fromSteering,
                        old(agent.steeringQueue.dropped), old(agent.steeringQueue.accepted))
              && GaveUp(agent.followUpQueue, FollowUp, trace, old(agent.followUpQueue.taken) + fromFollowUp,
                        old(agent.followUpQueue.dropped), old(agent.followUpQueue.accepted))
    ensures r.Ran? && CleanRun(s, trace, r.report) ==>
              && Delivered(s, trace, old(agent.messages), agent.messages)
              && Conserved(agent.steeringQueue, Steering, trace, old(agent.steeringQueue.taken) + fromSteering,
                           old(agent.steeringQueue.dropped), old(agent.steeringQueue.accepted),
                           agent.messages[|old(agent.messages)|..])
              && Conserved(agent.followUpQueue, FollowUp, trace, old(agent.followUpQueue.taken) + fromFollowUp,
                           old(agent.followUpQueue.dropped), old(agent.followUpQueue.accepted),
                           agent.messages[|old(agent.messages)|..])
  {
    hide CleanRun, Conserved, Delivered, GaveUp, Settled, SkipsFit, HandsOut, LeftWaiting, Accounted, Flatten;
    s, trace, fromSteering, fromFollowUp := Setup([], [], Sequential, [], ToolHooks(false, false)), [], [], [];
    if agent.activeRun != null {
      r := RefusedBusy;
      return;
    }
    var n := |agent.messages|;
    var report;
    if n == 0 || agent.messages[n - 1].AssistantMessage? || agent.messages[n - 1].CustomMessage? {
      var queuedSteering, queuedFollowUps := DrainForContinuation(agent);
      fromSteering, fromFollowUp := queuedSteering, queuedFollowUps;
      EmptySides(queuedSteering, queuedFollowUps);
      if queuedSteering != [] {
        report, s, trace := RunConserving(agent, Some(queuedSteering), true, turnLimit);
        r := Ran(report);
        return;
      }
      if queuedFollowUps != [] {
        report, s, trace := RunConserving(agent, Some(queuedFollowUps), false, turnLimit);
        r := Ran(report);
        return;
      }
      if n == 0 || agent.messages[n - 1].AssistantMessage? {
        r := NothingToContinue;
        return;
      }
    }
    EmptySides(old(agent.steeringQueue.taken), old(agent.followUpQueue.taken));
    report, s, trace := RunConserving(agent, None, false, turnLimit);
    r := Ran(report);
  }

  lemma EmptySides(a: seq<AgentMessage>, b: seq<AgentMessage>)
    ensures a + [] == a && b + [] == b && [] + a == a && [] + b == b
  {}
}
