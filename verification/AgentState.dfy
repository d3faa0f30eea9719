/** The event-sourced agent: two message queues and the state that `processEvents` rebuilds from events. */
module AgentState {
  import opened Wrappers
  import opened AgentTypes
  import opened LoopProtocol

  /** What a batch queue removes: whole batches in which some message satisfies the predicate. */
  function Removed(batches: seq<seq<AgentMessage>>, drop: AgentMessage -> bool): seq<seq<AgentMessage>> {
    if batches == [] then []
    else (if exists m <- batches[0] :: drop(m) then [batches[0]] else []) + Removed(batches[1..], drop)
  }

  function Retained(batches: seq<seq<AgentMessage>>, drop: AgentMessage -> bool): seq<seq<AgentMessage>> {
    if batches == [] then []
    else (if exists m <- batches[0] :: drop(m) then [] else [batches[0]]) + Retained(batches[1..], drop)
  }

  lemma RemovalStep(batches: seq<seq<AgentMessage>>, i: nat, drop: AgentMessage -> bool)
    requires i <= |batches|
    ensures i == |batches| ==> Flatten(Removed(batches[i..], drop)) == [] && Retained(batches[i..], drop) == []
    ensures i < |batches| ==>
              Flatten(Removed(batches[i..], drop)) ==
              (if exists m <- batches[i] :: drop(m) then batches[i] else []) + Flatten(Removed(batches[i + 1..], drop))
    ensures i < |batches| ==>
              Retained(batches[i..], drop) ==
              (if exists m <- batches[i] :: drop(m) then [] else [batches[i]]) + Retained(batches[i + 1..], drop)
  {
    if i == |batches| {
      return;
    }
    var rest := Removed(batches[i + 1..], drop);
    assert batches[i..][0] == batches[i] && batches[i..][1..] == batches[i + 1..];
    if exists m <- batches[i] :: drop(m) {
      FlattenAppend([batches[i]], rest);
      assert Flatten([batches[i]]) == batches[i] + Flatten([batches[i]][1..]) == batches[i];
    } else {
      assert Removed(batches[i..], drop) == rest;
    }
  }

  /** `a` is `b` with some elements left out. */
  predicate Within<T(==)>(a: seq<T>, b: seq<T>) {
    a == [] || (b != [] && ((a[0] == b[0] && Within(a[1..], b[1..])) || Within(a, b[1..])))
  }

  lemma {:induction false} WithinItself<T>(a: seq<T>)
    ensures Within(a, a)
  {
    if a != [] {
      WithinItself(a[1..]);
    }
  }

  lemma {:induction false} WithinLonger<T>(a: seq<T>, b: seq<T>)
    ensures Within(a, b) ==> |a| <= |b| && (|a| == |b| ==> a == b)
  {
    if a != [] && b != [] {
      WithinLonger(a[1..], b[1..]);
      WithinLonger(a, b[1..]);
      assert a == [a[0]] + a[1..] && b == [b[0]] + b[1..];
    }
  }

  lemma {:induction false} WithinTransitive<T>(a: seq<T>, b: seq<T>, c: seq<T>)
    requires Within(a, b) && Within(b, c)
    ensures Within(a, c)
    decreases |b| + |c|
  {
    if a != [] {
      if b[0] == c[0] && Within(b[1..], c[1..]) {
        if a[0] == b[0] && Within(a[1..], b[1..]) {
          WithinTransitive(a[1..], b[1..], c[1..]);
        } else {
          WithinTransitive(a, b[1..], c[1..]);
        }
      } else {
        WithinTransitive(a, b, c[1..]);
      }
    }
  }

  lemma {:induction false} WithinConcatenation<T>(a: seq<T>, b: seq<T>, c: seq<T>, d: seq<T>)
    requires Within(a, b) && Within(c, d)
    ensures Within(a + c, b + d)
    decreases |b|
  {
    if b == [] {
      assert a + c == c && b + d == d;
    } else {
      assert (b + d)[0] == b[0] && (b + d)[1..] == b[1..] + d;
      if a != [] && a[0] == b[0] && Within(a[1..], b[1..]) {
        assert (a + c)[0] == a[0] && (a + c)[1..] == a[1..] + c;
        WithinConcatenation(a[1..], b[1..], c, d);
      } else {
        WithinConcatenation(a, b[1..], c, d);
      }
    }
  }

  lemma {:induction false} RetainedWithin(batches: seq<seq<AgentMessage>>, drop: AgentMessage -> bool)
    ensures Within(Flatten(Retained(batches, drop)), Flatten(batches))
  {
    hide Flatten, Within;
    if batches == [] {
      WithinItself(Flatten(batches));
      NothingFlattened();
    } else {
      var first, rest := batches[0], batches[1..];
      var kept := Retained(rest, drop);
      RetainedWithin(rest, drop);
      assert batches == [first] + rest && [] + kept == kept;
      FlattenCons(first, rest);
      if exists m <- first :: drop(m) {
        WithinMore(first, Flatten(kept), Flatten(rest));
      } else {
        FlattenCons(first, kept);
        WithinItself(first);
        WithinConcatenation(first, first, Flatten(kept), Flatten(rest));
      }
    }
  }

  lemma {:induction false} RetainedAndRemoved(batches: seq<seq<AgentMessage>>, drop: AgentMessage -> bool)
    ensures multiset(Flatten(batches)) ==
            multiset(Flatten(Retained(batches, drop))) + multiset(Flatten(Removed(batches, drop)))
  {
    hide Flatten;
    if batches == [] {
      NothingFlattened();
    } else {
      var first, rest := batches[0], batches[1..];
      var kept, gone := Retained(rest, drop), Removed(rest, drop);
      RetainedAndRemoved(rest, drop);
      assert batches == [first] + rest && [] + kept == kept && [] + gone == gone;
      FlattenCons(first, rest);
      FlattenCons(first, gone);
      FlattenCons(first, kept);
    }
  }

  lemma NothingFlattened()
    ensures Flatten<AgentMessage>([]) == []
  {}

  lemma WithinMore(more: seq<AgentMessage>, a: seq<AgentMessage>, b: seq<AgentMessage>)
    requires Within(a, b)
    ensures Within(a, more + b)
  {
    assert Within([], more);
    WithinConcatenation([], more, a, b);
    assert [] + a == a;
  }

  lemma FlattenMore(batches: seq<seq<AgentMessage>>, batch: seq<AgentMessage>)
    ensures Flatten(batches + [batch]) == Flatten(batches) + batch
  {
    FlattenAppend(batches, [batch]);
    assert Flatten([batch]) == batch;
  }

  lemma FlattenCons(batch: seq<AgentMessage>, batches: seq<seq<AgentMessage>>)
    ensures Flatten([batch] + batches) == batch + Flatten(batches)
  {
    FlattenAppend([batch], batches);
    assert Flatten([batch]) == batch;
  }

  /** What one drain takes from the waiting batches: all of them, or the first one whole. */
  function HandsOut(mode: QueueMode, batches: seq<seq<AgentMessage>>): seq<AgentMessage> {
    if mode == All then Flatten(batches) else if batches == [] then [] else batches[0]
  }

  function LeftWaiting(mode: QueueMode, batches: seq<seq<AgentMessage>>): seq<seq<AgentMessage>> {
    if mode == All || batches == [] then [] else batches[1..]
  }

  /** Each one-at-a-time poll of a source in a trace took nothing, or exactly one batch as it was enqueued. */
  predicate WholeBatches(trace: seq<Obs>, source: Source, history: seq<seq<AgentMessage>>) {
    forall o <- trace :: o.Polled? && o.source == source && o.queueMode == OneAtATime ==>
      o.batch == [] || o.batch in history
  }

  predicate SteeringPolled(trace: seq<Obs>) {
    exists o <- trace :: o.Polled? && o.source.Steering?
  }

  /** Exactly the first steering poll is skipped, if any is to be; it then takes nothing. */
  predicate SkipsFit(trace: seq<Obs>, skips: bool) {
    trace == []
    || (var before, o := trace[..|trace| - 1], trace[|trace| - 1];
        && SkipsFit(before, skips)
        && (o.Polled? ==>
              && o.skipped == (o.source.Steering? && skips && !SteeringPolled(before))
              && (o.skipped ==> o.batch == [])))
  }

  /**
   * `history` is every batch ever enqueued, `accepted` their messages, `taken` every message drained, `dropped`
   * every message that `Clear` or `RemoveWhere` took back. What was taken and what waits keep the order of arrival.
   */
  class PendingMessageQueue {
    var batches: seq<seq<AgentMessage>>
    var mode: QueueMode
    ghost var history: seq<seq<AgentMessage>>
    ghost var accepted: seq<AgentMessage>
    ghost var taken: seq<AgentMessage>
    ghost var dropped: seq<AgentMessage>

    ghost predicate Valid()
      reads this
    {
      && (forall batch <- batches :: batch != [] && batch in history)
      && accepted == Flatten(history)
      && Accounted(accepted, taken + Flatten(batches), dropped)
    }

    constructor (mode: QueueMode)
      ensures Valid() && batches == [] && accepted == taken == dropped == [] && this.mode == mode
    {
      batches, this.mode, history, accepted, taken, dropped := [], mode, [], [], [], [];
    }

    method Enqueue(batch: seq<AgentMessage>)
      requires Valid()
      modifies this
      ensures Valid() && mode == old(mode) && taken == old(taken) && dropped == old(dropped)
      ensures accepted == old(accepted) + batch
      ensures history == if batch == [] then old(history) else old(history) + [batch]
      ensures batches == if batch == [] then old(batches) else old(batches) + [batch]
    {
      hide Accounted, Flatten;
      if batch != [] {
        FlattenMore(batches, batch);
        FlattenMore(history, batch);
        assert taken + (Flatten(batches) + batch) == (taken + Flatten(batches)) + batch;
        AccountedMore(accepted, taken + Flatten(batches), dropped, batch);
        batches := batches + [batch];
        history := history + [batch];
        accepted := accepted + batch;
      } else {
        assert accepted + batch == accepted;
      }
    }

    predicate HasItems()
      requires Valid()
      reads this
      ensures HasItems() <==> Flatten(batches) != []
    {
      NothingWaits(batches);
      batches != []
    }

    /** Nothing is lost or reordered; one-at-a-time hands out exactly the oldest whole batch. */
    method Drain() returns (drained: seq<AgentMessage>)
      requires Valid()
      modifies this
      ensures Valid() && mode == old(mode)
      ensures accepted == old(accepted) && dropped == old(dropped) && history == old(history)
      ensures taken == old(taken) + drained
      ensures drained == HandsOut(old(mode), old(batches)) && batches == LeftWaiting(old(mode), old(batches))
      ensures drained == [] <==> old(batches) == []
    {
      hide Accounted;
      if mode == All {
        drained := Flatten(batches);
        NothingWaits(batches);
        batches := [];
        assert taken + drained + [] == taken + drained;
      } else if batches == [] {
        drained := [];
        assert taken + [] == taken;
      } else {
        drained := batches[0];
        assert [batches[0]] + batches[1..] == batches && batches[0] in batches;
        FlattenCons(batches[0], batches[1..]);
        assert taken + (batches[0] + Flatten(batches[1..])) == taken + batches[0] + Flatten(batches[1..]);
        batches := batches[1..];
      }
      taken := taken + drained;
    }

    method Clear()
      requires Valid()
      modifies this
      ensures Valid() && batches == [] && mode == old(mode) && taken == old(taken) && accepted == old(accepted)
      ensures history == old(history)
      ensures dropped == old(dropped) + Flatten(old(batches))
    {
      var queued := Flatten(batches);
      WithinItself(taken);
      WithinConcatenation(taken, taken, [], queued);
      assert taken + [] == taken;
      AccountedLess(accepted, taken + queued, dropped, taken, queued);
      dropped := dropped + queued;
      batches := [];
    }

    method RemoveWhere(drop: AgentMessage -> bool) returns (removed: seq<AgentMessage>)
      requires Valid()
      modifies this
      ensures Valid() && mode == old(mode) && taken == old(taken) && accepted == old(accepted)
      ensures history == old(history)
      ensures removed == Flatten(Removed(old(batches), drop)) && dropped == old(dropped) + removed
      ensures batches == Retained(old(batches), drop)
    {
      hide Flatten, Removed, Retained, Accounted, Within;
      var all := batches;
      removed := [];
      var retained: seq<seq<AgentMessage>> := [];
      for i := 0 to |all|
        invariant unchanged(this)
        invariant removed + Flatten(Removed(all[i..], drop)) == Flatten(Removed(all, drop))
        invariant retained + Retained(all[i..], drop) == Retained(all, drop)
      {
        RemovalStep(all, i, drop);
        if exists m <- all[i] :: drop(m) {
          removed := removed + all[i];
        } else {
          retained := retained + [all[i]];
        }
      }
      RemovalStep(all, |all|, drop);
      assert removed + [] == removed && retained + [] == retained;
      NothingFlattened();
      RemovalAccounted(accepted, taken, all, dropped, drop);
      RetainedWereThere(all, drop);
      dropped := dropped + removed;
      batches := retained;
    }
  }

  lemma NothingWaits(batches: seq<seq<AgentMessage>>)
    requires forall batch <- batches :: batch != []
    ensures Flatten(batches) == [] <==> batches == []
  {
    if batches != [] {
      assert [batches[0]] + batches[1..] == batches && batches[0] in batches;
      FlattenCons(batches[0], batches[1..]);
    }
  }

  lemma {:induction false} RetainedWereThere(batches: seq<seq<AgentMessage>>, drop: AgentMessage -> bool)
    ensures forall batch <- Retained(batches, drop) :: batch in batches
  {
    if batches != [] {
      RetainedWereThere(batches[1..], drop);
      assert batches == [batches[0]] + batches[1..];
    }
  }

  /** Everything accepted is still in line, in order of arrival, or was dropped. */
  ghost predicate Accounted(accepted: seq<AgentMessage>, inLine: seq<AgentMessage>, dropped: seq<AgentMessage>) {
    Within(inLine, accepted) && multiset(accepted) == multiset(inLine) + multiset(dropped)
  }

  lemma AccountedMore(accepted: seq<AgentMessage>, inLine: seq<AgentMessage>, dropped: seq<AgentMessage>,
                      batch: seq<AgentMessage>)
    requires Accounted(accepted, inLine, dropped)
    ensures Accounted(accepted + batch, inLine + batch, dropped)
  {
    WithinItself(batch);
    WithinConcatenation(inLine, accepted, batch, batch);
  }

  lemma AccountedLess(accepted: seq<AgentMessage>, inLine: seq<AgentMessage>, dropped: seq<AgentMessage>,
                      kept: seq<AgentMessage>, gone: seq<AgentMessage>)
    requires Accounted(accepted, inLine, dropped)
    requires Within(kept, inLine) && multiset(inLine) == multiset(kept) + multiset(gone)
    ensures Accounted(accepted, kept, dropped + gone)
  {
    WithinTransitive(kept, inLine, accepted);
  }

  lemma RemovalAccounted(accepted: seq<AgentMessage>, taken: seq<AgentMessage>, batches: seq<seq<AgentMessage>>,
                         dropped: seq<AgentMessage>, drop: AgentMessage -> bool)
    requires Accounted(accepted, taken + Flatten(batches), dropped)
    ensures Accounted(accepted, taken + Flatten(Retained(batches, drop)), dropped + Flatten(Removed(batches, drop)))
  {
    hide Within, Flatten, Removed, Retained;
    RetainedWithin(batches, drop);
    RetainedAndRemoved(batches, drop);
    WithinItself(taken);
    WithinConcatenation(taken, taken, Flatten(Retained(batches, drop)), Flatten(batches));
    AccountedLess(accepted, taken + Flatten(batches), dropped, taken + Flatten(Retained(batches, drop)),
                  Flatten(Removed(batches, drop)));
  }

  /** With nothing dropped, what was taken and what waits are exactly what was accepted, in order. */
  lemma NothingDropped(accepted: seq<AgentMessage>, inLine: seq<AgentMessage>)
    requires Accounted(accepted, inLine, [])
    ensures accepted == inLine
  {
    WithinLonger(inLine, accepted);
    assert |multiset(accepted)| == |accepted| && |multiset(inLine)| == |inLine|;
  }

  /** Removal by predicate splits the queue: a batch is kept whole or removed whole, each side in order. */
  lemma {:induction false} RemovalSplits(batches: seq<seq<AgentMessage>>, drop: AgentMessage -> bool)
    ensures multiset(Removed(batches, drop)) + multiset(Retained(batches, drop)) == multiset(batches)
    ensures forall batch <- Retained(batches, drop), m <- batch :: !drop(m)
    ensures forall batch <- Removed(batches, drop) :: exists m <- batch :: drop(m)
  {
    if batches != [] {
      RemovalSplits(batches[1..], drop);
      assert batches == [batches[0]] + batches[1..];
    }
  }

  /** The observable part of the agent's state that events rebuild. */
  datatype AgentView = AgentView(
    messages: seq<AgentMessage>, streamingMessage: Option<AgentMessage>,
    pendingToolCalls: set<string>, errorMessage: Option<string>)

  function Reduce(view: AgentView, event: AgentEvent): AgentView {
    match event
    case MessageStart(m) => view.(streamingMessage := Some(m))
    case MessageUpdate(m) => view.(streamingMessage := Some(m))
    case MessageEnd(m) => view.(streamingMessage := None, messages := view.messages + [m])
    case ToolExecutionStart(id, _, _) => view.(pendingToolCalls := view.pendingToolCalls + {id})
    case ToolExecutionEnd(id, _, _, _) => view.(pendingToolCalls := view.pendingToolCalls - {id})
    case TurnEnd(m, _) =>
      if m.AssistantMessage? && m.errorMessage.Some? && m.errorMessage.value != "" then
        view.(errorMessage := m.errorMessage)
      else view
    case AgentEnd(_) => view.(streamingMessage := None)
    case _ => view
  }

  /** The view after a whole trace. */
  function Observed(view: AgentView, trace: seq<Obs>): AgentView {
    if trace == [] then view else ReduceObs(Observed(view, trace[..|trace| - 1]), trace[|trace| - 1])
  }

  function ReduceObs(view: AgentView, o: Obs): AgentView {
    if o.Emitted? || o.ToolEmitted? then Reduce(view, o.event) else view
  }

  /** The messages a trace took from one source, in order. */
  function PolledFrom(trace: seq<Obs>, source: Source): seq<AgentMessage> {
    if trace == [] then []
    else
      PolledFrom(trace[..|trace| - 1], source) +
      match trace[|trace| - 1]
      case Polled(s, _, batch, _) => if s == source then batch else []
      case _ => []
  }

  /** One run's abort controller and idle promise. */
  class ActiveRun {
    var aborted: bool
    var resolved: bool

    constructor ()
      ensures !aborted && !resolved
    {
      aborted, resolved := false, false;
    }
  }

  class Agent {
    const steeringQueue: PendingMessageQueue
    const followUpQueue: PendingMessageQueue
    var messages: seq<AgentMessage>
    var isStreaming: bool
    var streamingMessage: Option<AgentMessage>
    var pendingToolCalls: set<string>
    var errorMessage: Option<string>
    var activeRun: ActiveRun?
    var toolExecution: ToolExecutionMode
    var tools: seq<Tool>
    /** Which of the hooks around a tool call are set. */
    var toolHooks: ToolHooks

    constructor (messages: seq<AgentMessage>, tools: seq<Tool>, toolExecution: ToolExecutionMode,
                 toolHooks: ToolHooks, steeringMode: QueueMode, followUpMode: QueueMode)
      ensures Valid() && Idle()
      ensures this.messages == messages && this.tools == tools && this.toolExecution == toolExecution
      ensures this.toolHooks == toolHooks
      ensures steeringQueue.batches == followUpQueue.batches == []
      ensures steeringQueue.mode == steeringMode && followUpQueue.mode == followUpMode
    {
      this.messages, this.tools, this.toolExecution, this.toolHooks := messages, tools, toolExecution, toolHooks;
      isStreaming, streamingMessage, pendingToolCalls, errorMessage := false, None, {}, None;
      activeRun := null;
      steeringQueue := new PendingMessageQueue(steeringMode);
      followUpQueue := new PendingMessageQueue(followUpMode);
    }

    ghost predicate Valid()
      reads this, steeringQueue, followUpQueue
    {
      steeringQueue != followUpQueue && steeringQueue.Valid() && followUpQueue.Valid()
    }

    /** No run is active: nothing streams, no bracket is open, no tool call is pending. */
    ghost predicate Idle()
      reads this
    {
      activeRun == null && !isStreaming && streamingMessage.None? && pendingToolCalls == {}
    }

    ghost function View(): AgentView
      reads this`messages, this`streamingMessage, this`pendingToolCalls, this`errorMessage
    {
      AgentView(messages, streamingMessage, pendingToolCalls, errorMessage)
    }

    /** The state half of `processEvents`; it is the fold step over exactly one event. */
    method ApplyEvent(event: AgentEvent)
      modifies this`messages, this`streamingMessage, this`pendingToolCalls, this`errorMessage
      ensures View() == Reduce(old(View()), event)
    {
      match event
      case MessageStart(m) => streamingMessage := Some(m);
      case MessageUpdate(m) => streamingMessage := Some(m);
      case MessageEnd(m) =>
        streamingMessage := None;
        messages := messages + [m];
      case ToolExecutionStart(id, _, _) => pendingToolCalls := pendingToolCalls + {id};
      case ToolExecutionEnd(id, _, _, _) => pendingToolCalls := pendingToolCalls - {id};
      case TurnEnd(m, _) =>
        if m.AssistantMessage? && m.errorMessage.Some? && m.errorMessage.value != "" {
          errorMessage := m.errorMessage;
        }
      case AgentEnd(_) => streamingMessage := None;
      case _ =>
    }
  }
}
