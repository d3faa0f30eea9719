/**
 * What an observer of one agent run may see: the order of events, polls and provider calls.
 *
 * `Accept` decides whether the next observation is allowed; a trace is `Legal` when every one of
 * its observations was. `AgentLoop` proves that the loop only ever produces legal traces, on every
 * path and under every answer of its hooks, tools, streams and of the abort signal. `LoopTheorems`
 * says what legality means for a listener.
 */
module LoopProtocol {
  import opened Wrappers
  import opened Outcomes
  import opened AgentTypes

  datatype Source = Steering | FollowUp | Continuation

  /** How much one drain of a queue takes. */
  datatype QueueMode = All | OneAtATime

  /** What a provider's stream delivers next. */
  datatype StreamItem =
    | StartItem(partial: AssistantReply)
    | UpdateItem(partial: AssistantReply)
    | TerminalItem(message: AssistantReply)
    | StreamExhausted

  /** What is learnt of the stream: its next item, and how awaiting its result ended. */
  datatype StreamStep = ItemSeen(item: StreamItem) | ResultSettled(outcome: Awaited<AssistantReply>)

  datatype Executed = Executed(output: ToolOutput, isError: bool)

  /** Partial override returned by the `afterToolCall` hook. */
  datatype AfterToolCallResult =
    AfterToolCallResult(text: Option<string>, isError: Option<bool>, terminate: Option<bool>)

  /**
   * What is learnt of a tool call: whether its arguments are bad, how the hook before it answered, that the
   * tool was invoked, that it gave an update, that a listener rejected one, how awaiting the tool ended,
   * whether awaiting its update listeners failed the call, what was made of all this, and how the hook after
   * it answered.
   */
  datatype CallStep =
    | ArgumentsChecked(failure: Option<string>)
    | BeforeHookAnswered(blocked: Awaited<Option<string>>)
    | ToolInvoked
    | UpdateGiven(update: ToolOutput)
    | UpdateRejected(error: Failure)
    | ToolSettled(outcome: Awaited<ToolOutput>)
    | UpdatesSettled(fault: Option<Failure>)
    | CallExecuted(executed: Executed)
    | AfterHookAnswered(override: Awaited<Option<AfterToolCallResult>>)

  datatype StopHook = AfterTurnHook | BeforeTurnHook

  /**
   * One observation. Tool events and steps carry the position of their call in the assistant message, so
   * that two calls with the same id stay apart. `Polled` says what a poll took out of its source, and in
   * which mode, whether or not an abort then threw it away, or that it was to be skipped. The last ones are
   * not the loop's own doing: an abort, a listener or another callback that threw, and queued messages that
   * others took back.
   */
  datatype Obs =
    | Emitted(event: AgentEvent)
    | ToolEmitted(call: nat, event: AgentEvent)
    | CallObserved(call: nat, callStep: CallStep)
    | StreamObserved(streamStep: StreamStep)
    | StopAnswered(hook: StopHook, stop: bool)
    | Polled(source: Source, queueMode: QueueMode, batch: seq<AgentMessage>, skipped: bool)
    | ProviderCalled(context: seq<AgentMessage>)
    | BatchDispatched(mode: ToolExecutionMode)
    | AbortSignalled
    | ListenerRejected(error: Failure)
    | HookThrew(error: Failure)
    | Withdrawn(source: Source, messages: seq<AgentMessage>)

  predicate IsInput(o: Obs) {
    o.AbortSignalled? || o.ListenerRejected? || o.HookThrew? || o.Withdrawn?
  }

  /** The hooks around a tool call that are configured. */
  datatype ToolHooks = ToolHooks(beforeToolCall: bool, afterToolCall: bool)

  /** The fixed surroundings of a run. */
  datatype Setup = Setup(
    base: seq<AgentMessage>, prompts: seq<AgentMessage>, mode: ToolExecutionMode, tools: seq<Tool>, hooks: ToolHooks)

  datatype CallState = Running | Ended(output: ToolOutput, isError: bool)

  /** What has been learnt of a started call so far. */
  datatype CallLog = CallLog(
    checked: Option<Option<string>>, before: Option<Awaited<Option<string>>>, invoked: bool,
    rejected: Option<Failure>, settled: Option<Awaited<ToolOutput>>, drained: Option<Option<Failure>>,
    executed: Option<Executed>, after: Option<Awaited<Option<AfterToolCallResult>>>)

  const NO_LOG := CallLog(None, None, false, None, None, None, None, None)

  /**
   * What has been learnt of the turn's stream so far: its latest partial, whether listeners were shown it,
   * whether it is over, the message of its terminal event, and how its result settled.
   */
  datatype Stream = Stream(
    partial: Option<AssistantReply>, shown: bool, over: bool, terminal: Option<AssistantReply>,
    result: Option<Awaited<AssistantReply>>)

  const NO_STREAM := Stream(None, true, false, None, None)

  /** A closed turn: what was injected, the response, its tool results, and whether it asked for another turn. */
  datatype Turn = Turn(
    injected: seq<AgentMessage>, response: AgentMessage, results: seq<AgentMessage>, wantsMore: bool)

  datatype Status = Unopened | Opened | InTurn | Between | Closed

  /**
   * `owed` are the messages the current or next turn must begin with, `said` those of them already
   * delivered, `open` the message whose bracket is open, `asked` the stop hooks that answered at this
   * boundary since the last poll, `untold` an update, with its call, that listeners are to be told of. A run
   * is `dead` when something threw that ends it.
   */
  datatype Protocol = Protocol(
    status: Status, aborted: bool, dead: bool, stopping: bool, asked: seq<StopHook>, turns: seq<Turn>,
    owed: seq<AgentMessage>, said: seq<AgentMessage>, open: Option<AgentMessage>,
    called: bool, stream: Stream, response: Option<AgentMessage>,
    batch: Option<ToolExecutionMode>, calls: seq<CallState>, logs: seq<CallLog>, results: seq<AgentMessage>,
    untold: Option<Untold>, lastPoll: Option<Source>)

  datatype Untold = Untold(call: nat, update: ToolOutput)

  function Initial(s: Setup): Protocol {
    Protocol(Unopened, false, false, false, [], [], s.prompts, [], None, false, NO_STREAM, None, None, [], [], [], None,
             None)
  }

  // ---------------------------------------------------------------- vocabulary

  predicate Failed(m: AgentMessage) {
    m.AssistantMessage? && (m.stopReason == Error || m.stopReason == Aborted)
  }

  function CallsOf(m: AgentMessage): seq<ToolCall> {
    if m.AssistantMessage? then m.toolCalls else []
  }

  predicate IsResultOf(m: AgentMessage, call: ToolCall) {
    m.ToolResultMessage? && m.toolCallId == call.id && m.toolName == call.name
  }

  /** Every tool call of the response has exactly one result, in source order. */
  predicate Answered(t: Turn) {
    && |t.results| == |CallsOf(t.response)|
    && forall i | 0 <= i < |t.results| :: IsResultOf(t.results[i], CallsOf(t.response)[i])
  }

  predicate NoneRunning(calls: seq<CallState>) {
    forall i | 0 <= i < |calls| :: calls[i].Ended?
  }

  /** The whole batch hints at termination, and there is a batch. */
  predicate Terminates(calls: seq<CallState>) {
    calls != [] && forall i | 0 <= i < |calls| :: calls[i].Ended? && calls[i].output.terminate
  }

  predicate NeedsSequential(s: Setup, calls: seq<ToolCall>) {
    s.mode == Sequential
    || exists i | 0 <= i < |calls| ::
         var tool := FindTool(s.tools, calls[i].name);
         tool.Some? && tool.value.executionMode == Some(Sequential)
  }

  function BatchMode(s: Setup, calls: seq<ToolCall>): ToolExecutionMode {
    if NeedsSequential(s, calls) then Sequential else Parallel
  }

  function ResultMessage(call: ToolCall, output: ToolOutput, isError: bool): AgentMessage {
    ToolResultMessage(call.id, call.name, output.text, isError)
  }

  function TurnMessages(t: Turn): seq<AgentMessage> {
    t.injected + [t.response] + t.results
  }

  function Transcript(turns: seq<Turn>): seq<AgentMessage> {
    if turns == [] then [] else Transcript(turns[..|turns| - 1]) + TurnMessages(turns[|turns| - 1])
  }

  /** Everything whose bracket has closed so far. */
  function Spoken(p: Protocol): seq<AgentMessage> {
    Transcript(p.turns) + p.said + (if p.response.Some? then [p.response.value] else []) + p.results
  }

  /** Between two turns, the last of which did not fail. */
  predicate Resting(p: Protocol) {
    !p.dead && p.status.Between? && p.turns != [] && !Failed(Last(p).response)
  }

  function Last(p: Protocol): Turn
    requires p.turns != []
  {
    p.turns[|p.turns| - 1]
  }

  /** The turn is open and no message bracket is. */
  predicate Quiet(p: Protocol) {
    !p.dead && p.status.InTurn? && p.open.None?
  }

  /** All owed messages are delivered and the response has not begun. */
  predicate AwaitingResponse(p: Protocol) {
    Quiet(p) && |p.said| == |p.owed| && p.response.None?
  }

  /** Before the first turn's call steering has been polled, unless the run was aborted. */
  predicate SteeringAsked(p: Protocol) {
    p.turns == [] ==> p.aborted || p.lastPoll == Some(Steering)
  }

  /** A dispatched tool batch is being worked through. */
  predicate InBatch(p: Protocol) {
    Quiet(p) && p.response.Some? && p.batch.Some?
  }

  /** The k-th call of the response is `call`, and it has started and not ended. */
  predicate IsRunning(p: Protocol, k: nat, call: ToolCall) {
    && InBatch(p)
    && k < |p.calls| && k < |CallsOf(p.response.value)|
    && CallsOf(p.response.value)[k] == call && p.calls[k].Running?
  }

  /** The provider has been called and the response's events are being delivered. */
  predicate Responding(p: Protocol) {
    p.called && p.batch.None?
  }

  /** A response without a provider call: the run was aborted first, and the message says so. */
  predicate AbortedReply(m: AgentMessage) {
    m.AssistantMessage? && m.stopReason == Aborted
  }

  // ---------------------------------------------------------------- responses

  function NextStream(t: Stream, step: StreamStep): Stream {
    match step
    case ItemSeen(StartItem(partial)) => t.(partial := Some(partial), shown := false)
    case ItemSeen(UpdateItem(partial)) => if t.partial.Some? then t.(partial := Some(partial), shown := false) else t
    case ItemSeen(TerminalItem(message)) => t.(over := true, terminal := Some(message))
    case ItemSeen(StreamExhausted) => t.(over := true)
    case ResultSettled(outcome) => t.(result := Some(outcome))
  }

  /** The stream is being read, and listeners have been shown all of it. */
  predicate Reading(p: Protocol) {
    && !p.dead && p.status.InTurn? && |p.said| == |p.owed| && Responding(p) && p.response.None?
    && p.stream.shown && (p.open.Some? <==> p.stream.partial.Some?)
  }

  /** A stream starts once a turn; its result is awaited once, when it is over. */
  predicate AcceptStream(p: Protocol, step: StreamStep) {
    && Reading(p)
    && match step
       case ItemSeen(item) => !p.stream.over && (item.StartItem? ==> p.stream.partial.None?)
       case ResultSettled(_) => p.stream.over && p.stream.result.None?
  }

  const ABORTED_TOOL := "Tool execution aborted"

  function AbortedMessage(partial: Option<AssistantReply>): AssistantReply {
    AssistantMessage(
      if partial.Some? then partial.value.text else "",
      if partial.Some? then partial.value.toolCalls else [],
      Aborted, Some(ABORT_ERROR_MESSAGE))
  }

  /**
   * The message a stream comes to: what its result settled with. In an aborted run whose result threw the
   * abort error it is the terminal event's message; without one, or with the stream cut short, it is the
   * latest partial marked aborted.
   */
  predicate FinalReply(t: Stream, aborted: bool, m: AgentMessage) {
    match t.result
    case Some(Done(reply)) => m == reply
    case Some(Threw(error)) =>
      aborted && error.abortLike && m == (if t.terminal.Some? then t.terminal.value else AbortedMessage(t.partial))
    case None => aborted && !t.over && m == AbortedMessage(t.partial)
  }

  /** A response needs a provider call, unless the run was aborted before there was one. */
  predicate AcceptReply(p: Protocol, m: AgentMessage) {
    && m.AssistantMessage? && (p.called || (p.aborted && AbortedReply(m)))
    && p.stream.shown && FinalReply(p.stream, p.aborted, m)
  }

  // ---------------------------------------------------------------- tool calls

  function CreateErrorToolResult(message: string): ToolOutput {
    ToolOutput(message, false)
  }

  function ErrorResult(message: string): Executed {
    Executed(CreateErrorToolResult(message), true)
  }

  function MergeAfterToolCall(executed: Executed, answer: AfterToolCallResult): Executed {
    Executed(
      ToolOutput(
        if answer.text.Some? then answer.text.value else executed.output.text,
        if answer.terminate.Some? then answer.terminate.value else executed.output.terminate),
      if answer.isError.Some? then answer.isError.value else executed.isError)
  }

  function NextLog(log: CallLog, step: CallStep): CallLog {
    match step
    case ArgumentsChecked(failure) => log.(checked := Some(failure))
    case BeforeHookAnswered(blocked) => log.(before := Some(blocked))
    case ToolInvoked => log.(invoked := true)
    case UpdateGiven(_) => log
    case UpdateRejected(error) => log.(rejected := if log.rejected.Some? then log.rejected else Some(error))
    case ToolSettled(outcome) => log.(settled := Some(outcome))
    case UpdatesSettled(fault) => log.(drained := Some(fault))
    case CallExecuted(executed) => log.(executed := Some(executed))
    case AfterHookAnswered(override) => log.(after := Some(override))
  }

  /** The arguments are good and the hook before the call, if there is one, let it pass. */
  predicate Cleared(s: Setup, log: CallLog) {
    log.checked == Some(None) && (if s.hooks.beforeToolCall then log.before == Some(Done(None)) else log.before.None?)
  }

  /** Why a call is not made: bad arguments, or the hook before it, which may block it or throw. */
  function RefusalOf(log: CallLog): Option<string> {
    match log.checked
    case Some(Some(failure)) => Some(failure)
    case _ =>
      match log.before
      case Some(Threw(error)) => Some(error.message)
      case Some(Done(Some(reason))) => Some(if reason == "" then "Tool execution was blocked" else reason)
      case _ => None
  }

  /**
   * What a cleared call comes to: the tool's output, unless the tool or an update listener threw. A call
   * that an abort kept from being invoked fails, and every failure under an abort says so.
   */
  function Execution(log: CallLog, aborted: bool): Option<Executed> {
    if !log.invoked then if aborted then Some(ErrorResult(ABORTED_TOOL)) else None
    else
      match (log.settled, log.drained)
      case (Some(Threw(error)), _) => Some(ErrorResult(if aborted then ABORTED_TOOL else error.message))
      case (Some(Done(_)), Some(Some(error))) => Some(ErrorResult(if aborted then ABORTED_TOOL else error.message))
      case (Some(Done(output)), Some(None)) => Some(Executed(output, false))
      case _ => None
  }

  /** The outcome after the hook behind the call, if there is one. */
  function Overridden(s: Setup, log: CallLog): Option<Executed> {
    if log.executed.None? || !s.hooks.afterToolCall then log.executed
    else
      match log.after
      case None => None
      case Some(Threw(error)) => Some(ErrorResult(error.message))
      case Some(Done(None)) => log.executed
      case Some(Done(Some(answer))) => Some(MergeAfterToolCall(log.executed.value, answer))
  }

  /** How a call ends, as soon as that is settled. */
  function EndOf(s: Setup, log: CallLog, name: string): Option<Executed> {
    if FindTool(s.tools, name).None? then Some(ErrorResult("Tool " + name + " not found"))
    else if RefusalOf(log).Some? then Some(ErrorResult(RefusalOf(log).value))
    else Overridden(s, log)
  }

  /** The k-th call has started and not ended. */
  predicate Underway(p: Protocol, k: nat) {
    k < |p.calls| && k < |p.logs| && p.calls[k].Running?
  }

  /**
   * The life of a call of a known tool. The first rejected update fails the call, unless an abort makes the
   * loop stop waiting, or the listener itself rejected because of the abort.
   */
  predicate AcceptStep(s: Setup, p: Protocol, k: nat, step: CallStep)
    requires InBatch(p)
  {
    && Underway(p, k)
    && var log := p.logs[k];
       match step
       case ArgumentsChecked(_) => log == NO_LOG && FindTool(s.tools, CalledTool(p, k)).Some?
       case BeforeHookAnswered(_) => s.hooks.beforeToolCall && log == NO_LOG.(checked := Some(None))
       case ToolInvoked => Cleared(s, log) && !log.invoked && log.executed.None? && !p.aborted
       case UpdateGiven(_) => log.invoked && log.settled.None? && p.untold.None?
       case UpdateRejected(_) => log.invoked && log.settled.None?
       case ToolSettled(_) => log.invoked && log.settled.None? && p.untold.None?
       case UpdatesSettled(fault) =>
         && log.settled.Some? && log.settled.value.Done? && log.drained.None?
         && (fault.None? ==> log.rejected.None? || p.aborted)
         && (fault.Some? ==> fault == log.rejected && !(p.aborted && fault.value.abortLike))
       case CallExecuted(executed) =>
         Cleared(s, log) && log.executed.None? && Execution(log, p.aborted) == Some(executed)
       case AfterHookAnswered(_) => s.hooks.afterToolCall && log.executed.Some? && log.after.None?
  }

  function CalledTool(p: Protocol, k: nat): string
    requires InBatch(p)
  {
    var requested := CallsOf(p.response.value);
    if k < |requested| then requested[k].name else ""
  }

  // ---------------------------------------------------------------- the protocol

  /**
   * The contracts of streams and listeners are part of the protocol: a stream starts once a turn, and
   * no listener rejects with an abort error while an aborted response is being delivered.
   */
  predicate Accept(s: Setup, p: Protocol, o: Obs) {
    match o
    case AbortSignalled => true
    case ListenerRejected(error) => !(error.abortLike && p.aborted && Responding(p))
    case HookThrew(_) => true
    case Withdrawn(_, _) => true
    case StopAnswered(hook, _) => Resting(p) && p.owed == [] && !p.stopping && AcceptStop(p, hook)
    case Polled(source, _, _, _) => AcceptPoll(p, source)
    case CallObserved(k, step) => InBatch(p) && AcceptStep(s, p, k, step)
    case StreamObserved(step) => AcceptStream(p, step)
    case ProviderCalled(context) =>
      AwaitingResponse(p) && SteeringAsked(p) && !p.called && context == s.base + Spoken(p)
    case BatchDispatched(mode) =>
      && Quiet(p) && p.response.Some? && p.batch.None?
      && !Failed(p.response.value) && CallsOf(p.response.value) != []
      && mode == BatchMode(s, CallsOf(p.response.value))
    case ToolEmitted(k, e) => InBatch(p) && AcceptTool(s, p, k, e)
    case Emitted(e) => !p.dead && AcceptEvent(p, e)
  }

  /** The hook behind a turn is asked first, and only once; the one before the next turn again and again. */
  predicate AcceptStop(p: Protocol, hook: StopHook) {
    hook == AfterTurnHook <==> p.asked == [] && p.lastPoll.None?
  }

  /**
   * Nothing is polled while messages are still owed. Steering comes first at a boundary, follow-ups
   * only after an empty steering poll and when the last turn wants no other, continuations only
   * after an empty follow-up poll. Before each poll of an unaborted run the stop hooks have been asked.
   */
  predicate AcceptPoll(p: Protocol, source: Source) {
    match source
    case Steering =>
      && !p.aborted && p.lastPoll.None?
      && (if p.turns == [] then AwaitingResponse(p) && !p.called
          else Resting(p) && p.owed == [] && !p.stopping && p.asked == [AfterTurnHook, BeforeTurnHook])
    case FollowUp =>
      && !p.aborted && p.lastPoll == Some(Steering) && p.asked == [BeforeTurnHook, BeforeTurnHook]
      && Resting(p) && p.owed == [] && !p.stopping && !Last(p).wantsMore
    case Continuation =>
      && (p.aborted || (p.lastPoll == Some(FollowUp) && p.asked == [BeforeTurnHook]))
      && Resting(p) && p.owed == [] && !p.stopping && !Last(p).wantsMore
  }

  /**
   * Calls start in source order. A sequential batch starts a call once the previous one has its
   * result; a parallel batch starts all before any result. Updates and the end need a running call.
   */
  predicate AcceptTool(s: Setup, p: Protocol, k: nat, e: AgentEvent)
    requires InBatch(p)
  {
    var requested := CallsOf(p.response.value);
    match e
    case ToolExecutionStart(id, name, args) =>
      && k == |p.calls| < |requested| && requested[k] == ToolCall(id, name, args)
      && (if p.batch.value.Parallel? then p.results == [] else !p.aborted && |p.results| == k && NoneRunning(p.calls))
    case ToolExecutionUpdate(id, name, args, update) =>
      && k < |p.calls| && k < |requested| && requested[k] == ToolCall(id, name, args)
      && Underway(p, k) && p.logs[k].invoked && p.logs[k].settled.None? && p.untold == Some(Untold(k, update))
    case ToolExecutionEnd(id, name, output, isError) =>
      && k < |p.calls| && k < |requested| && requested[k].id == id && requested[k].name == name
      && Underway(p, k) && EndOf(s, p.logs[k], name) == Some(Executed(output, isError))
    case _ => false
  }

  predicate AcceptEvent(p: Protocol, e: AgentEvent) {
    match e
    case AgentStart => p.status.Unopened?
    case TurnStart =>
      || p.status.Opened?
      || (Resting(p) && !p.aborted && !p.stopping && Answered(Last(p))
          && (p.owed != [] || (Last(p).wantsMore && p.asked == [BeforeTurnHook])))
    case MessageStart(m) => Quiet(p) && AcceptMessage(p, m)
    case MessageUpdate(m) =>
      && p.status.InTurn? && p.open.Some? && |p.said| == |p.owed| && p.response.None?
      && !p.stream.shown && p.stream.partial == Some(m)
    case MessageEnd(m) =>
      && p.status.InTurn? && p.open.Some?
      && (if |p.said| == |p.owed| && p.response.None? then AcceptReply(p, m) else m == p.open.value)
    case TurnEnd(m, toolResults) =>
      && Quiet(p) && p.response == Some(m) && toolResults == p.results
      && NoneRunning(p.calls) && |p.results| == |p.calls|
      && (if Failed(m) then p.batch.None?
          else |p.results| == |CallsOf(m)| || (p.batch == Some(Sequential) && p.aborted))
    case AgentEnd(messages) =>
      p.status.Between? && p.turns != [] && messages == Transcript(p.turns) && MayEnd(p)
    case _ => false
  }

  /** An unaborted run ends owing nothing, for one of three reasons: a failed response, a stop hook, or no work left. */
  predicate MayEnd(p: Protocol)
    requires p.turns != []
  {
    p.aborted
    || (p.owed == []
        && (Failed(Last(p).response) || p.stopping || (p.lastPoll == Some(Continuation) && !Last(p).wantsMore)))
  }

  /** Which message may open a bracket: the next owed one, then the response, then results in source order. */
  predicate AcceptMessage(p: Protocol, m: AgentMessage)
    requires Quiet(p)
  {
    if |p.said| < |p.owed| then
      m == p.owed[|p.said|]
    else if p.response.None? then
      if p.stream.partial.Some? then !p.stream.shown && m == p.stream.partial.value else AcceptReply(p, m)
    else
      var j := |p.results|;
      var requested := CallsOf(p.response.value);
      && p.batch.Some? && NoneRunning(p.calls)
      && j < |p.calls| && |p.calls| <= |requested|
      && (p.batch.value.Parallel? ==> |p.calls| == |requested|)
      && m == ResultMessage(requested[j], p.calls[j].output, p.calls[j].isError)
  }

  function Next(p: Protocol, o: Obs): (q: Protocol)
    ensures q.aborted == (p.aborted || o.AbortSignalled?)
  {
    match o
    case AbortSignalled => p.(aborted := true)
    case StopAnswered(hook, stop) => p.(stopping := p.stopping || stop, asked := p.asked + [hook])
    case CallObserved(k, step) =>
      var told := if step.UpdateGiven? && !p.aborted then p.(untold := Some(Untold(k, step.update))) else p;
      if k < |p.logs| then told.(logs := p.logs[k := NextLog(p.logs[k], step)]) else told
    case StreamObserved(step) => p.(stream := NextStream(p.stream, step))
    case Polled(source, _, batch, _) => p.(owed := p.owed + batch, lastPoll := Some(source), asked := [])
    case ProviderCalled(_) => p.(called := true)
    case ListenerRejected(_) => p.(dead := true)
    case HookThrew(error) => p.(dead := p.dead || !(error.abortLike && p.aborted))
    case Withdrawn(_, _) => p
    case BatchDispatched(mode) => p.(batch := Some(mode))
    case ToolEmitted(k, ToolExecutionStart(_, _, _)) =>
      p.(calls := p.calls + [Running], logs := p.logs + [NO_LOG])
    case ToolEmitted(k, ToolExecutionEnd(_, _, output, isError)) =>
      if k < |p.calls| then p.(calls := p.calls[k := Ended(output, isError)]) else p
    case ToolEmitted(_, ToolExecutionUpdate(_, _, _, _)) => p.(untold := None)
    case ToolEmitted(_, _) => p
    case Emitted(e) => NextEvent(p, e)
  }

  function NextEvent(p: Protocol, e: AgentEvent): Protocol {
    match e
    case AgentStart => p.(status := Opened)
    case TurnStart => p.(status := InTurn)
    case MessageStart(m) => p.(open := Some(m), stream := ShownStream(p))
    case MessageUpdate(m) => p.(open := Some(m), stream := ShownStream(p))
    case MessageEnd(m) =>
      if |p.said| < |p.owed| then p.(open := None, said := p.said + [m])
      else if p.response.None? then p.(open := None, response := Some(m))
      else p.(open := None, results := p.results + [m])
    case TurnEnd(m, _) =>
      p.(status := Between, turns := p.turns + [ClosedTurn(p, m)], asked := [], owed := [], said := [],
         called := false, stream := NO_STREAM, response := None, batch := None, calls := [], logs := [],
         results := [], lastPoll := None)
    case AgentEnd(_) => p.(status := Closed)
    case _ => p
  }

  function ShownStream(p: Protocol): Stream {
    if |p.said| == |p.owed| && p.response.None? then p.stream.(shown := true) else p.stream
  }

  function ClosedTurn(p: Protocol, m: AgentMessage): Turn {
    Turn(p.said, m, p.results, !Failed(m) && CallsOf(m) != [] && !Terminates(p.calls))
  }

  function Run(s: Setup, trace: seq<Obs>): Protocol {
    if trace == [] then Initial(s)
    else Next(Run(s, trace[..|trace| - 1]), trace[|trace| - 1])
  }

  predicate Legal(s: Setup, trace: seq<Obs>) {
    trace == []
    || (Legal(s, trace[..|trace| - 1]) && Accept(s, Run(s, trace[..|trace| - 1]), trace[|trace| - 1]))
  }

  /** A stream or a listener breaks its contract: a second `start`, or an abort rejection that is not expected. */
  predicate Breach(p: Protocol, o: Obs) {
    match o
    case StreamObserved(ItemSeen(StartItem(_))) => Reading(p) && !p.stream.over && p.stream.partial.Some?
    case ListenerRejected(error) => error.abortLike && p.aborted && Responding(p)
    case _ => false
  }

  /** The first thing out of line was not the loop's doing. */
  predicate Excused(s: Setup, trace: seq<Obs>) {
    && trace != []
    && var before, o := trace[..|trace| - 1], trace[|trace| - 1];
       Excused(s, before) || (Legal(s, before) && Breach(Run(s, before), o))
  }

  /** A callback of the loop, its stream or one of its listeners threw this. */
  predicate ThrownIn(trace: seq<Obs>, error: Failure) {
    exists o <- trace :: (o.HookThrew? || o.ListenerRejected?) && o.error == error
  }

  /** Queued messages of one source that others took back, in the order they did so. */
  function WithdrawnFrom(trace: seq<Obs>, source: Source): seq<AgentMessage> {
    if trace == [] then []
    else
      WithdrawnFrom(trace[..|trace| - 1], source) +
      match trace[|trace| - 1]
      case Withdrawn(s, messages) => if s == source then messages else []
      case _ => []
  }
}
