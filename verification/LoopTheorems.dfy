/** What every legal trace promises a listener, and what the agent's rebuilt state then is. */
module LoopTheorems {
  import opened Wrappers
  import opened Outcomes
  import opened AgentTypes
  import opened LoopProtocol
  import opened AgentState

  // ---------------------------------------------------------------- the invariant behind the theorems

  /** The tool batch of the open turn: results are a prefix of the calls, which are a prefix of the request. */
  predicate BatchConsistent(p: Protocol) {
    && (p.response.None? ==> p.batch.None?)
    && (p.batch.None? ==> p.calls == [] && p.results == [])
    && |p.logs| == |p.calls|
    && (p.batch.Some? ==>
          var requested := CallsOf(p.response.value);
          && !Failed(p.response.value)
          && |p.results| <= |p.calls| <= |requested|
          && (forall j | 0 <= j < |p.results| ::
                p.calls[j].Ended? && p.results[j] == ResultMessage(requested[j], p.calls[j].output, p.calls[j].isError))
          && (p.open.Some? || (p.batch == Some(Parallel) && p.results != []) ==>
                NoneRunning(p.calls) && (p.batch == Some(Parallel) ==> |p.calls| == |requested|))
          && (p.open.Some? ==>
                |p.results| < |p.calls| && p.open == Some(
                  ResultMessage(requested[|p.results|], p.calls[|p.results|].output, p.calls[|p.results|].isError))))
  }

  predicate TurnConsistent(p: Protocol) {
    && (p.status.InTurn? ==> p.said <= p.owed)
    && (!p.status.InTurn? ==> p.said == [] && p.open.None? && p.response.None? && !p.called)
    && (p.status.InTurn? && p.open.Some? && |p.said| < |p.owed| ==> p.open.value == p.owed[|p.said|])
    && (p.response.Some? ==> p.said == p.owed && p.response.value.AssistantMessage?)
    && (p.response.Some? && p.open.Some? ==> p.batch.Some?)
  }

  /** Results of a closed turn are those of its first calls, all of them unless the turn was cut short. */
  predicate ResultsAnswerPrefix(t: Turn) {
    && |t.results| <= |CallsOf(t.response)|
    && forall j | 0 <= j < |t.results| :: IsResultOf(t.results[j], CallsOf(t.response)[j])
  }

  predicate HistoryConsistent(p: Protocol) {
    && (p.status.Unopened? || p.status.Opened? ==> p.turns == [] && p.lastPoll.None?)
    && (p.status.Between? || p.status.Closed? ==> p.turns != [])
    && (forall i | 0 <= i < |p.turns| :: ResultsAnswerPrefix(p.turns[i]))
    && (forall i | 0 <= i < |p.turns| - 1 :: Answered(p.turns[i]) && !Failed(p.turns[i].response))
    && (p.status.InTurn? && p.turns != [] ==> Answered(Last(p)) && !Failed(Last(p).response))
    && (p.status.Closed? && !p.aborted ==> p.owed == [])
  }

  predicate Inv(p: Protocol) {
    BatchConsistent(p) && TurnConsistent(p) && HistoryConsistent(p)
  }

  lemma BatchStep(s: Setup, p: Protocol, o: Obs)
    requires Inv(p) && Accept(s, p, o)
    ensures BatchConsistent(Next(p, o))
  {
    hide Transcript, AcceptEvent, NextEvent, AcceptPoll, HistoryConsistent, Answered, Spoken, BatchMode, EndOf,
         AcceptStep, NextLog, AcceptStream, NextStream, CalledTool, AcceptTool;
    match o
    case Emitted(e) => BatchEventStep(p, e);
    case ToolEmitted(k, e) => BatchToolStep(s, p, k, e);
    case _ =>
  }

  lemma BatchToolStep(s: Setup, p: Protocol, k: nat, e: AgentEvent)
    requires Inv(p) && InBatch(p) && AcceptTool(s, p, k, e)
    ensures BatchConsistent(Next(p, ToolEmitted(k, e)))
  {
    hide NextEvent, HistoryConsistent, TurnConsistent, EndOf, NextLog, NextStream;
  }

  lemma BatchEventStep(p: Protocol, e: AgentEvent)
    requires Inv(p) && AcceptEvent(p, e)
    ensures BatchConsistent(NextEvent(p, e))
  {
    hide Transcript, MayEnd, Answered, HistoryConsistent;
  }

  lemma TurnStep(s: Setup, p: Protocol, o: Obs)
    requires Inv(p) && Accept(s, p, o)
    ensures TurnConsistent(Next(p, o))
  {
    hide Transcript, AcceptTool, AcceptEvent, NextEvent, HistoryConsistent, Answered;
    if o.Emitted? {
      TurnEventStep(p, o.event);
    }
  }

  lemma TurnEventStep(p: Protocol, e: AgentEvent)
    requires Inv(p) && AcceptEvent(p, e)
    ensures TurnConsistent(NextEvent(p, e))
  {
    hide Transcript, MayEnd, Answered, HistoryConsistent, Terminates;
    assert p.said <= p.owed && |p.said| == |p.owed| ==> p.said == p.owed;
  }

  lemma HistoryStep(s: Setup, p: Protocol, o: Obs)
    requires Inv(p) && Accept(s, p, o)
    ensures HistoryConsistent(Next(p, o))
  {
    hide Transcript, AcceptTool, AcceptEvent, NextEvent, BatchConsistent, TurnConsistent, Answered, ResultsAnswerPrefix;
    hide Spoken, BatchMode, AcceptStep, NextLog, AcceptStream, NextStream;
    if o.Emitted? {
      HistoryEventStep(p, o.event);
    }
  }

  lemma HistoryEventStep(p: Protocol, e: AgentEvent)
    requires Inv(p) && AcceptEvent(p, e)
    ensures HistoryConsistent(NextEvent(p, e))
  {
    hide AcceptEvent, NextEvent, HistoryConsistent, BatchConsistent, TurnConsistent;
    match e
    case TurnEnd(m, toolResults) => TurnEndHistory(p, m, toolResults);
    case TurnStart => TurnStartHistory(p);
    case AgentStart => MarkHistory(p, e);
    case AgentEnd(_) => MarkHistory(p, e);
    case _ => MessageHistory(p, e);
  }

  lemma MarkHistory(p: Protocol, e: AgentEvent)
    requires Inv(p) && AcceptEvent(p, e) && (e.AgentStart? || e.AgentEnd?)
    ensures HistoryConsistent(NextEvent(p, e))
  {
    hide Answered, ResultsAnswerPrefix, BatchConsistent, TurnConsistent, Transcript;
  }

  lemma MessageHistory(p: Protocol, e: AgentEvent)
    requires Inv(p) && AcceptEvent(p, e)
    requires !e.AgentStart? && !e.AgentEnd? && !e.TurnStart? && !e.TurnEnd?
    ensures HistoryConsistent(NextEvent(p, e))
  {
    hide AcceptEvent, Answered, ResultsAnswerPrefix, BatchConsistent, TurnConsistent, ShownStream, Transcript,
         HistoryConsistent;
    SameHistory(p, NextEvent(p, e));
  }

  lemma SameHistory(p: Protocol, q: Protocol)
    requires HistoryConsistent(p)
    requires q.status == p.status && q.turns == p.turns && q.lastPoll == p.lastPoll && q.owed == p.owed
    requires p.aborted ==> q.aborted
    ensures HistoryConsistent(q)
  {
    hide Answered, ResultsAnswerPrefix;
  }

  lemma TurnStartHistory(p: Protocol)
    requires Inv(p) && AcceptEvent(p, TurnStart)
    ensures HistoryConsistent(NextEvent(p, TurnStart))
  {
    hide Answered, ResultsAnswerPrefix, BatchConsistent, TurnConsistent, Transcript;
  }

  lemma TurnEndHistory(p: Protocol, m: AgentMessage, toolResults: seq<AgentMessage>)
    requires Inv(p) && AcceptEvent(p, TurnEnd(m, toolResults))
    ensures HistoryConsistent(NextEvent(p, TurnEnd(m, toolResults)))
  {
    hide Transcript, Terminates, Answered;
    assert ResultsAnswerPrefix(ClosedTurn(p, m));
  }

  lemma InitialInv(s: Setup)
    ensures Inv(Initial(s))
  {}

  lemma {:induction false} InvHolds(s: Setup, trace: seq<Obs>)
    requires Legal(s, trace)
    ensures Inv(Run(s, trace))
  {
    hide Accept, Next, Inv;
    if trace == [] {
      InitialInv(s);
    } else {
      var before, o := trace[..|trace| - 1], trace[|trace| - 1];
      InvHolds(s, before);
      InvStep(s, Run(s, before), o);
    }
  }

  lemma InvStep(s: Setup, p: Protocol, o: Obs)
    requires Inv(p) && Accept(s, p, o)
    ensures Inv(Next(p, o))
  {
    hide Accept, Next, BatchConsistent, TurnConsistent, HistoryConsistent;
    BatchStep(s, p, o);
    TurnStep(s, p, o);
    HistoryStep(s, p, o);
  }

  /** The last step of a non-empty legal trace. */
  lemma LastStep(s: Setup, trace: seq<Obs>) returns (before: seq<Obs>, o: Obs)
    requires Legal(s, trace) && trace != []
    ensures trace == before + [o] && trace[..|trace| - 1] == before && trace[|trace| - 1] == o
    ensures Legal(s, before) && Accept(s, Run(s, before), o) && Run(s, trace) == Next(Run(s, before), o)
    ensures Inv(Run(s, before)) && Inv(Run(s, trace))
  {
    hide Accept, Next, Inv;
    before, o := trace[..|trace| - 1], trace[|trace| - 1];
    InvHolds(s, before);
    InvHolds(s, trace);
  }

  /** The step at position i of a legal trace. */
  lemma StepAt(s: Setup, trace: seq<Obs>, i: nat)
    requires Legal(s, trace) && i < |trace|
    ensures Legal(s, trace[..i]) && Accept(s, Run(s, trace[..i]), trace[i])
    ensures Run(s, trace[..i + 1]) == Next(Run(s, trace[..i]), trace[i])
    ensures Inv(Run(s, trace[..i])) && Inv(Run(s, trace[..i + 1]))
  {
    hide Accept, Next, Inv, Run, Legal;
    LegalPrefix(s, trace, i);
    LegalPrefix(s, trace, i + 1);
    InvHolds(s, trace[..i]);
    InvHolds(s, trace[..i + 1]);
  }

  lemma {:induction false} LegalPrefix(s: Setup, trace: seq<Obs>, i: nat)
    requires Legal(s, trace) && i <= |trace|
    ensures Legal(s, trace[..i])
    ensures i < |trace| ==>
            Accept(s, Run(s, trace[..i]), trace[i]) && Run(s, trace[..i + 1]) == Next(Run(s, trace[..i]), trace[i])
  {
    hide Accept, Next;
    if i == |trace| {
      assert trace[..i] == trace;
    } else {
      var before := trace[..|trace| - 1];
      assert before[..i] == trace[..i];
      LegalPrefix(s, before, i);
      if i + 1 < |trace| {
        assert before[..i + 1] == trace[..i + 1];
      } else {
        assert trace[..i + 1] == trace && trace[..i] == before;
      }
    }
  }

  // ---------------------------------------------------------------- transcript = message_end payloads

  /** Payloads of the `message_end` events, in order. */
  function MessageEnds(trace: seq<Obs>): seq<AgentMessage> {
    if trace == [] then []
    else
      MessageEnds(trace[..|trace| - 1]) +
      match trace[|trace| - 1]
      case Emitted(MessageEnd(m)) => [m]
      case _ => []
  }

  lemma SpokenStep(s: Setup, p: Protocol, o: Obs)
    requires Inv(p) && Accept(s, p, o)
    ensures Spoken(Next(p, o)) == Spoken(p) + (if o.Emitted? && o.event.MessageEnd? then [o.event.message] else [])
  {
    hide Transcript, AcceptTool, AcceptEvent, NextEvent, AcceptPoll, Inv;
    if o.Emitted? {
      SpokenEventStep(p, o.event);
    }
  }

  lemma SpokenEventStep(p: Protocol, e: AgentEvent)
    requires Inv(p) && AcceptEvent(p, e)
    ensures Spoken(NextEvent(p, e)) == Spoken(p) + (if e.MessageEnd? then [e.message] else [])
  {
    hide Transcript, HistoryConsistent, Answered, MayEnd, AcceptMessage, Terminates, ClosedTurn;
    if e.TurnEnd? {
      SpokenAtTurnEnd(p, e.message, e.toolResults);
    }
  }

  lemma SpokenAtTurnEnd(p: Protocol, m: AgentMessage, toolResults: seq<AgentMessage>)
    requires Inv(p) && AcceptEvent(p, TurnEnd(m, toolResults))
    ensures Spoken(NextEvent(p, TurnEnd(m, toolResults))) == Spoken(p)
  {
    hide Transcript, HistoryConsistent, BatchConsistent, Answered, Terminates;
    TranscriptGrows(p.turns, ClosedTurn(p, m));
  }

  lemma TranscriptGrows(turns: seq<Turn>, t: Turn)
    ensures Transcript(turns + [t]) == Transcript(turns) + TurnMessages(t)
  {
    assert (turns + [t])[..|turns|] == turns;
  }

  /** The turns a trace has closed, plus what the open turn has said, are its `message_end` payloads in order. */
  lemma {:induction false} TranscriptIsMessageEnds(s: Setup, trace: seq<Obs>)
    requires Legal(s, trace)
    ensures Spoken(Run(s, trace)) == MessageEnds(trace)
  {
    if trace == [] {
      return;
    }
    hide Run, Legal, Accept, Next, Inv, Spoken;
    var before, o := LastStep(s, trace);
    TranscriptIsMessageEnds(s, before);
    SpokenStep(s, Run(s, before), o);
  }

  // ---------------------------------------------------------------- provider calls

  lemma {:induction false} TranscriptSplit(turns: seq<Turn>, k: nat)
    requires k < |turns|
    ensures |Transcript(turns[..k])| + |TurnMessages(turns[k])| <= |Transcript(turns)|
    ensures Transcript(turns)[|Transcript(turns[..k])|..][..|TurnMessages(turns[k])|] == TurnMessages(turns[k])
  {
    var before := turns[..|turns| - 1];
    var n := |TurnMessages(turns[k])|;
    if k == |turns| - 1 {
      assert Transcript(turns) == Transcript(before) + TurnMessages(turns[k]);
    } else {
      TranscriptSplit(before, k);
      assert before[..k] == turns[..k] && before[k] == turns[k];
      var at := |Transcript(turns[..k])|;
      assert Transcript(turns)[at..][..n] == Transcript(before)[at..][..n];
    }
  }

  /** Where the response of the k-th turn stands in a context that starts with `base`. */
  function ResponseAt(s: Setup, turns: seq<Turn>, k: nat): nat
    requires k < |turns|
  {
    |s.base| + |Transcript(turns[..k])| + |turns[k].injected|
  }

  /**
   * Every provider call sees exactly the transcript the listeners have seen, and in it every
   * response of an earlier turn is followed directly by one result per tool call, in source order.
   */
  lemma ProviderSeesAnsweredCalls(s: Setup, trace: seq<Obs>, i: nat)
    requires Legal(s, trace) && i < |trace| && trace[i].ProviderCalled?
    ensures trace[i].context == s.base + MessageEnds(trace[..i])
    ensures var context, turns := trace[i].context, Run(s, trace[..i]).turns;
            forall k | 0 <= k < |turns| ::
              var at, calls := ResponseAt(s, turns, k), CallsOf(turns[k].response);
              && at + |calls| < |context| && context[at] == turns[k].response && !Failed(context[at])
              && forall j | 0 <= j < |calls| :: IsResultOf(context[at + 1 + j], calls[j])
  {
    hide Run, Legal, Accept, Next, Inv, Spoken, Transcript;
    StepAt(s, trace, i);
    var p := Run(s, trace[..i]);
    CallSeesAnswered(s, p, trace[i]);
    TranscriptIsMessageEnds(s, trace[..i]);
    forall k | 0 <= k < |p.turns|
      ensures var at, calls := ResponseAt(s, p.turns, k), CallsOf(p.turns[k].response);
              && at + |calls| < |trace[i].context| && trace[i].context[at] == p.turns[k].response
              && !Failed(trace[i].context[at])
              && forall j | 0 <= j < |calls| :: IsResultOf(trace[i].context[at + 1 + j], calls[j])
    {
      PairedAt(s, p, k, trace[i].context);
    }
  }

  lemma CallSeesAnswered(s: Setup, p: Protocol, o: Obs)
    requires Inv(p) && Accept(s, p, o) && o.ProviderCalled?
    ensures o.context == s.base + Spoken(p)
    ensures forall k | 0 <= k < |p.turns| :: Answered(p.turns[k]) && !Failed(p.turns[k].response)
  {
    hide Spoken, Transcript, BatchConsistent, Answered;
  }

  lemma PairedAt(s: Setup, p: Protocol, k: nat, context: seq<AgentMessage>)
    requires k < |p.turns| && context == s.base + Spoken(p)
    requires Answered(p.turns[k]) && !Failed(p.turns[k].response)
    ensures var at, calls := ResponseAt(s, p.turns, k), CallsOf(p.turns[k].response);
            && at + |calls| < |context| && context[at] == p.turns[k].response && !Failed(context[at])
            && forall j | 0 <= j < |calls| :: IsResultOf(context[at + 1 + j], calls[j])
  {
    var t := p.turns[k];
    var start := |Transcript(p.turns[..k])|;
    var whole := TurnMessages(t);
    TranscriptSplit(p.turns, k);
    forall x | 0 <= x < |whole| ensures context[|s.base| + start + x] == whole[x] {
      assert Transcript(p.turns)[start..][..|whole|][x] == Transcript(p.turns)[start + x];
    }
    assert whole[|t.injected|] == t.response;
    forall j | 0 <= j < |CallsOf(t.response)|
      ensures IsResultOf(context[ResponseAt(s, p.turns, k) + 1 + j], CallsOf(t.response)[j])
    {
      assert whole[|t.injected| + 1 + j] == t.results[j];
    }
  }

  /** How often the provider was called since the last `turn_start`. */
  function CallsThisTurn(trace: seq<Obs>): nat {
    if trace == [] then 0
    else
      var before := CallsThisTurn(trace[..|trace| - 1]);
      match trace[|trace| - 1]
      case ProviderCalled(_) => before + 1
      case Emitted(TurnStart) => 0
      case _ => before
  }

  /** A response that is not an aborted one has been asked for, and so has one that is still open. */
  predicate ReplyCalled(p: Protocol) {
    && (!p.status.InTurn? ==> !p.called)
    && (p.response.Some? && !AbortedReply(p.response.value) ==> p.called)
  }

  lemma ReplyCalledStep(s: Setup, p: Protocol, o: Obs)
    requires Inv(p) && Accept(s, p, o) && ReplyCalled(p)
    ensures var q := Next(p, o);
            && ReplyCalled(q)
            && (q.called <==> o.ProviderCalled? || (p.called && !(o.Emitted? && o.event.TurnEnd?)))
            && (o.ProviderCalled? ==> !p.called) && (o == Emitted(TurnStart) ==> !p.called)
  {
    hide Transcript, AcceptTool, AcceptPoll, AcceptEvent, NextEvent, Spoken, HistoryConsistent, BatchConsistent;
    if o.Emitted? {
      ReplyCalledEventStep(p, o.event);
    }
  }

  lemma ReplyCalledEventStep(p: Protocol, e: AgentEvent)
    requires Inv(p) && AcceptEvent(p, e) && ReplyCalled(p)
    ensures ReplyCalled(NextEvent(p, e)) && (NextEvent(p, e).called <==> p.called && !e.TurnEnd?)
    ensures e.TurnStart? ==> !p.called
  {
    hide Transcript, MayEnd, Answered, HistoryConsistent, BatchConsistent, Terminates, ClosedTurn;
  }

  lemma {:induction false} OneCallPerTurn(s: Setup, trace: seq<Obs>)
    requires Legal(s, trace)
    ensures var p := Run(s, trace);
            ReplyCalled(p) && (p.status.InTurn? ==> CallsThisTurn(trace) == if p.called then 1 else 0)
  {
    if trace == [] {
      return;
    }
    hide Run, Legal, Accept, Next, Inv, ReplyCalled;
    var before, o := LastStep(s, trace);
    OneCallPerTurn(s, before);
    ReplyCalledStep(s, Run(s, before), o);
    TurnMarkStep(s, Run(s, before), o);
  }

  lemma {:induction false} CalledRemembered(s: Setup, trace: seq<Obs>) returns (c: nat)
    requires Legal(s, trace) && Run(s, trace).called
    ensures c < |trace| && trace[c].ProviderCalled? && WithinTurn(trace, c, |trace|)
  {
    hide Legal, Accept, Next, Inv, ReplyCalled;
    var before, o := LastStep(s, trace);
    OneCallPerTurn(s, before);
    ReplyCalledStep(s, Run(s, before), o);
    if o.ProviderCalled? {
      c := |before|;
    } else {
      c := CalledRemembered(s, before);
      assert forall k | 0 <= k < |before| :: before[k] == trace[k];
    }
  }

  /**
   * Every turn whose response is not an aborted one has called the provider exactly once, before the
   * response began.
   */
  lemma ResponseFollowsOneCall(s: Setup, trace: seq<Obs>, i: nat) returns (c: nat)
    requires Legal(s, trace) && i < |trace| && trace[i].Emitted? && trace[i].event.TurnEnd?
    requires !AbortedReply(trace[i].event.message)
    ensures c < i && trace[c].ProviderCalled? && WithinTurn(trace, c, i) && CallsThisTurn(trace[..i]) == 1
    ensures AwaitingResponse(Run(s, trace[..c])) && Run(s, trace[..i]).response == Some(trace[i].event.message)
  {
    hide Run, Legal, Transcript, Inv, Terminates, Spoken;
    StepAt(s, trace, i);
    OneCallPerTurn(s, trace[..i]);
    c := CalledRemembered(s, trace[..i]);
    assert trace[..i][c] == trace[c];
    StepAt(s, trace, c);
  }

  /** The run is over as far as turns go: its last turn failed or was cut short. */
  predicate Cut(p: Protocol) {
    && (p.status.Between? || p.status.Closed?)
    && p.turns != [] && (Failed(Last(p).response) || !Answered(Last(p)))
  }

  lemma CutStep(s: Setup, p: Protocol, o: Obs)
    requires Cut(p) && Accept(s, p, o)
    ensures Cut(Next(p, o)) && !o.ProviderCalled? && o != Emitted(TurnStart)
  {
    hide Transcript, AcceptTool, AcceptMessage, AcceptPoll, Answered, Failed;
  }

  lemma {:induction false} StaysCut(s: Setup, trace: seq<Obs>, i: nat, j: nat)
    requires Legal(s, trace) && i <= j < |trace| && Cut(Run(s, trace[..i]))
    ensures Cut(Run(s, trace[..j]))
    decreases j - i
  {
    hide Run, Legal, Accept, Next, Cut, Inv;
    if i < j {
      StepAt(s, trace, i);
      CutStep(s, Run(s, trace[..i]), trace[i]);
      StaysCut(s, trace, i + 1, j);
    }
  }

  /** A turn that was cut short, or whose response failed, is the last one: no turn and no provider call follows. */
  lemma NothingAfterACutTurn(s: Setup, trace: seq<Obs>, i: nat, j: nat)
    requires Legal(s, trace) && i < j < |trace|
    requires trace[i].Emitted? && trace[i].event.TurnEnd?
    requires var m := trace[i].event.message;
             m.AssistantMessage?
             && (m.stopReason == Error || m.stopReason == Aborted || |trace[i].event.toolResults| < |m.toolCalls|)
    ensures !trace[j].ProviderCalled?
    ensures trace[j] != Emitted(TurnStart)
  {
    hide Run, Legal, Transcript, Inv, Terminates;
    StepAt(s, trace, i);
    assert Last(Run(s, trace[..i + 1])) == ClosedTurn(Run(s, trace[..i]), trace[i].event.message);
    assert Cut(Run(s, trace[..i + 1]));
    StaysCut(s, trace, i + 1, j);
    StepAt(s, trace, j);
    CutStep(s, Run(s, trace[..j]), trace[j]);
  }

  lemma {:induction false} StoppingRemembered(s: Setup, trace: seq<Obs>)
    requires Run(s, trace).stopping
    ensures exists o <- trace :: o.StopAnswered? && o.stop
  {
    hide Next;
    var last := |trace| - 1;
    StoppingStep(Run(s, trace[..last]), trace[last]);
    if Run(s, trace[..last]).stopping {
      StoppingRemembered(s, trace[..last]);
      assert forall o <- trace[..last] :: o in trace;
    }
  }

  lemma StoppingStep(p: Protocol, o: Obs)
    ensures Next(p, o).stopping <==> p.stopping || (o.StopAnswered? && o.stop)
  {
    hide ClosedTurn, ShownStream;
  }

  /**
   * A run not aborted ends for a reason: its last response failed, a stop hook said so, or the continuations
   * were asked for last, at this boundary, and there was none.
   */
  lemma EndsForAReason(s: Setup, trace: seq<Obs>, i: nat)
    requires Legal(s, trace) && i < |trace| && trace[i].Emitted? && trace[i].event.AgentEnd?
    requires AbortSignalled !in trace[..i]
    ensures var turns := Run(s, trace[..i]).turns;
            && turns != []
            && var m := turns[|turns| - 1].response;
            || (m.AssistantMessage? && (m.stopReason == Error || m.stopReason == Aborted))
            || (exists o <- trace[..i] :: o.StopAnswered? && o.stop)
            || (exists j | 0 <= j < i ::
                  EmptyPoll(trace[j], Continuation) && forall k | j < k < i :: !trace[k].Emitted? && !trace[k].Polled?)
  {
    hide Run, Legal, Inv, Transcript;
    StepAt(s, trace, i);
    AbortRemembered(s, trace[..i]);
    var p := Run(s, trace[..i]);
    if p.stopping {
      StoppingRemembered(s, trace[..i]);
    } else if !Failed(Last(p).response) {
      var j := LatestPoll(s, trace, i);
    }
  }

  // ---------------------------------------------------------------- conservation of polled messages

  /** Everything polled, tagged with the source it came from. */
  function PolledTagged(trace: seq<Obs>): seq<(Source, AgentMessage)> {
    if trace == [] then []
    else
      PolledTagged(trace[..|trace| - 1]) +
      match trace[|trace| - 1]
      case Polled(source, _, batch, _) => Tagged(source, batch)
      case _ => []
  }

  function Tagged(source: Source, batch: seq<AgentMessage>): seq<(Source, AgentMessage)> {
    seq(|batch|, i requires 0 <= i < |batch| => (source, batch[i]))
  }

  function Untagged(tagged: seq<(Source, AgentMessage)>): seq<AgentMessage> {
    seq(|tagged|, i requires 0 <= i < |tagged| => tagged[i].1)
  }

  function OnlyFrom(tagged: seq<(Source, AgentMessage)>, source: Source): seq<AgentMessage> {
    if tagged == [] then []
    else OnlyFrom(tagged[..|tagged| - 1], source)
         + (if tagged[|tagged| - 1].0 == source then [tagged[|tagged| - 1].1] else [])
  }

  lemma OnlyFromOne(tagged: seq<(Source, AgentMessage)>, one: (Source, AgentMessage), source: Source)
    ensures OnlyFrom(tagged + [one], source) == OnlyFrom(tagged, source) + if one.0 == source then [one.1] else []
  {
    assert (tagged + [one])[..|tagged|] == tagged;
  }

  lemma {:induction false} OnlyFromAppend(tagged: seq<(Source, AgentMessage)>, from: Source, batch: seq<AgentMessage>,
                                          source: Source)
    ensures OnlyFrom(tagged + Tagged(from, batch), source) == OnlyFrom(tagged, source) +
            if from == source then batch else []
  {
    hide OnlyFrom;
    if batch == [] {
      assert tagged + Tagged(from, batch) == tagged;
    } else {
      var init, last := batch[..|batch| - 1], batch[|batch| - 1];
      OnlyFromAppend(tagged, from, init, source);
      var whole, shorter := tagged + Tagged(from, batch), tagged + Tagged(from, init);
      assert whole == shorter + [(from, last)] && batch == init + [last];
      OnlyFromOne(shorter, (from, last), source);
      if from == source {
        assert OnlyFrom(tagged, source) + (init + [last]) == (OnlyFrom(tagged, source) + init) + [last];
      }
    }
  }

  lemma {:induction false} PollsBySource(trace: seq<Obs>, source: Source)
    ensures OnlyFrom(PolledTagged(trace), source) == PolledFrom(trace, source)
  {
    if trace != [] {
      var before, o := trace[..|trace| - 1], trace[|trace| - 1];
      PollsBySource(before, source);
      if o.Polled? {
        OnlyFromAppend(PolledTagged(before), o.source, o.batch, source);
        assert PolledTagged(trace) == PolledTagged(before) + Tagged(o.source, o.batch);
      } else {
        assert PolledTagged(trace) == PolledTagged(before);
        assert PolledFrom(trace, source) == PolledFrom(before, source);
      }
    }
  }

  function Injected(turns: seq<Turn>): seq<AgentMessage> {
    if turns == [] then [] else Injected(turns[..|turns| - 1]) + turns[|turns| - 1].injected
  }

  lemma NothingYet(s: Setup)
    ensures Injected(Run(s, []).turns) + Run(s, []).owed == s.prompts + Untagged(PolledTagged([]))
    ensures Alternates(TurnMarks([])) && |TurnMarks([])| == MarkCount(Run(s, []))
  {
    assert Untagged(PolledTagged([])) == [];
  }

  lemma {:induction false} PolledIsInjectedOrOwed(s: Setup, trace: seq<Obs>)
    requires Legal(s, trace)
    ensures Injected(Run(s, trace).turns) + Run(s, trace).owed == s.prompts + Untagged(PolledTagged(trace))
  {
    hide Run, Legal, Accept, Next, Inv, Injected, PolledTagged, Untagged;
    if trace == [] {
      NothingYet(s);
      return;
    }
    var before, o := LastStep(s, trace);
    PolledIsInjectedOrOwed(s, before);
    InjectedStep(s, Run(s, before), o);
    PolledAppend(before, o);
    var batch := if o.Polled? then o.batch else [];
    assert s.prompts + Untagged(PolledTagged(before)) + batch == s.prompts + (Untagged(PolledTagged(before)) + batch);
  }

  lemma PolledAppend(trace: seq<Obs>, o: Obs)
    ensures Untagged(PolledTagged(trace + [o])) == Untagged(PolledTagged(trace)) + if o.Polled? then o.batch else []
  {
    assert (trace + [o])[..|trace|] == trace;
  }

  lemma InjectedStep(s: Setup, p: Protocol, o: Obs)
    requires Inv(p) && Accept(s, p, o)
    ensures Injected(Next(p, o).turns) + Next(p, o).owed ==
            Injected(p.turns) + p.owed + if o.Polled? then o.batch else []
  {
    hide AcceptTool, AcceptPoll, AcceptEvent, NextEvent, Inv, Spoken;
    if o.Emitted? {
      InjectedEventStep(p, o.event);
    }
  }

  lemma InjectedEventStep(p: Protocol, e: AgentEvent)
    requires Inv(p) && AcceptEvent(p, e)
    ensures Injected(NextEvent(p, e).turns) + NextEvent(p, e).owed == Injected(p.turns) + p.owed
  {
    hide Transcript, AcceptMessage, Answered, HistoryConsistent, BatchConsistent, Terminates, MayEnd;
    if e.TurnEnd? {
      InjectedGrows(p.turns, ClosedTurn(p, e.message));
    }
  }

  lemma InjectedGrows(turns: seq<Turn>, t: Turn)
    ensures Injected(turns + [t]) == Injected(turns) + t.injected
  {
    assert (turns + [t])[..|turns|] == turns;
  }

  /**
   * Queue conservation. In a run that ended without an abort, the injected messages of its turns
   * are the prompts followed by everything polled, in polling order; what came from one source is
   * exactly what that source gave up, in its own order. Nothing polled is lost to a stop hook.
   */
  lemma PolledIsDelivered(s: Setup, trace: seq<Obs>, source: Source)
    requires Legal(s, trace) && Run(s, trace).status.Closed? && !Run(s, trace).aborted
    ensures Injected(Run(s, trace).turns) == s.prompts + Untagged(PolledTagged(trace))
    ensures OnlyFrom(PolledTagged(trace), source) == PolledFrom(trace, source)
  {
    hide Run, Legal, BatchConsistent, TurnConsistent;
    InvHolds(s, trace);
    PolledIsInjectedOrOwed(s, trace);
    PollsBySource(trace, source);
  }

  lemma {:induction false} OnlyFromWithin(tagged: seq<(Source, AgentMessage)>, source: Source)
    ensures Within(OnlyFrom(tagged, source), Untagged(tagged))
  {
    if tagged == [] {
      assert OnlyFrom(tagged, source) == [];
    } else {
      var last := |tagged| - 1;
      OnlyFromWithin(tagged[..last], source);
      assert Untagged(tagged) == Untagged(tagged[..last]) + [tagged[last].1];
      var one := [tagged[last].1];
      WithinItself(one);
      assert Within([], one);
      WithinConcatenation(OnlyFrom(tagged[..last], source), Untagged(tagged[..last]),
                          if tagged[last].0 == source then one else [], one);
    }
  }

  lemma {:induction false} InjectedWithin(turns: seq<Turn>)
    ensures Within(Injected(turns), Transcript(turns))
  {
    if turns != [] {
      var before, t := turns[..|turns| - 1], turns[|turns| - 1];
      InjectedWithin(before);
      WithinItself(t.injected);
      assert Within([], [t.response] + t.results);
      WithinConcatenation(t.injected, t.injected, [], [t.response] + t.results);
      assert t.injected + [] == t.injected;
      assert t.injected + ([t.response] + t.results) == TurnMessages(t);
      WithinConcatenation(Injected(before), Transcript(before), t.injected, TurnMessages(t));
    }
  }

  /** What one source gave up is found in the transcript of the run, in the order in which it was queued. */
  lemma DeliveredInOrder(s: Setup, trace: seq<Obs>, source: Source)
    requires Legal(s, trace) && Run(s, trace).status.Closed? && !Run(s, trace).aborted
    ensures Within(PolledFrom(trace, source), Transcript(Run(s, trace).turns))
  {
    hide Run, Legal, Injected, Within, OnlyFrom, PolledFrom, Untagged, PolledTagged, Transcript;
    PolledIsDelivered(s, trace, source);
    var tagged, turns := PolledTagged(trace), Run(s, trace).turns;
    OnlyFromWithin(tagged, source);
    WithinMore(s.prompts, OnlyFrom(tagged, source), Untagged(tagged));
    InjectedWithin(turns);
    WithinTransitive(OnlyFrom(tagged, source), Injected(turns), Transcript(turns));
  }

  /** The prompts open the first turn, and so the transcript of the run. */
  predicate PromptsFirst(s: Setup, p: Protocol) {
    if p.turns == [] then s.prompts <= p.owed else s.prompts <= p.turns[0].injected
  }

  lemma PromptsStep(s: Setup, p: Protocol, o: Obs)
    requires Inv(p) && Accept(s, p, o) && PromptsFirst(s, p)
    ensures PromptsFirst(s, Next(p, o))
  {
    hide Transcript, AcceptTool, AcceptPoll, AcceptEvent, NextEvent, Answered, Inv;
    if o.Emitted? {
      PromptsEventStep(s, p, o.event);
    }
  }

  lemma PromptsEventStep(s: Setup, p: Protocol, e: AgentEvent)
    requires Inv(p) && AcceptEvent(p, e) && PromptsFirst(s, p)
    ensures PromptsFirst(s, NextEvent(p, e))
  {
    hide Transcript, Answered, HistoryConsistent, BatchConsistent, Terminates, MayEnd, AcceptMessage;
  }

  lemma {:induction false} PromptsComeFirst(s: Setup, trace: seq<Obs>)
    requires Legal(s, trace)
    ensures PromptsFirst(s, Run(s, trace))
  {
    hide Legal, Accept, Next, Inv, PromptsFirst;
    if trace == [] {
      PromptsAtStart(s);
      return;
    }
    var before, o := LastStep(s, trace);
    PromptsComeFirst(s, before);
    PromptsStep(s, Run(s, before), o);
  }

  lemma PromptsAtStart(s: Setup)
    ensures PromptsFirst(s, Initial(s))
  {}

  /** A closed run delivered its prompts before anything else. */
  lemma TranscriptStartsWithPrompts(s: Setup, trace: seq<Obs>)
    requires Legal(s, trace) && Run(s, trace).status.Closed?
    ensures MessageEnds(trace) == Transcript(Run(s, trace).turns) && s.prompts <= MessageEnds(trace)
  {
    hide Run, Legal, BatchConsistent;
    InvHolds(s, trace);
    TranscriptIsMessageEnds(s, trace);
    PromptsComeFirst(s, trace);
    var p := Run(s, trace);
    ClosedSaysNothing(p);
    TranscriptSplit(p.turns, 0);
    assert p.turns[..0] == [] && Transcript([]) == [];
    var first := TurnMessages(p.turns[0]);
    assert Transcript(p.turns)[0..][..|first|] == first;
    assert p.turns[0].injected <= first;
  }

  lemma ClosedSaysNothing(p: Protocol)
    requires Inv(p) && p.status.Closed? && p.turns != []
    ensures Spoken(p) == Transcript(p.turns)
  {
    hide Transcript, HistoryConsistent;
  }

  /** Continuations are asked for only after an empty follow-up poll at the same boundary, unless aborted. */
  lemma ContinuationAfterEmptyFollowUp(s: Setup, trace: seq<Obs>, i: nat)
    requires Legal(s, trace) && i < |trace| && trace[i].Polled? && trace[i].source == Continuation
    requires !Run(s, trace[..i]).aborted
    ensures exists j | 0 <= j < i ::
              && EmptyPoll(trace[j], FollowUp)
              && forall k | j < k < i :: !trace[k].Emitted? && !trace[k].Polled?
  {
    hide Run, Legal, Inv;
    StepAt(s, trace, i);
    var j := LatestPoll(s, trace, i);
  }

  predicate EmptyPoll(o: Obs, source: Source) {
    o.Polled? && o.source == source && o.batch == []
  }

  /** At a boundary where something has been polled and nothing is owed. */
  predicate PolledEmpty(p: Protocol) {
    p.status.Between? && p.lastPoll.Some? && p.owed == []
  }

  lemma PolledEmptyStep(s: Setup, p: Protocol, o: Obs)
    requires Inv(p) && Accept(s, p, o) && PolledEmpty(Next(p, o))
    ensures if o.Polled? then EmptyPoll(o, Next(p, o).lastPoll.value)
            else !o.Emitted? && PolledEmpty(p) && p.lastPoll == Next(p, o).lastPoll
  {
    hide Transcript, AcceptTool, AcceptEvent, NextEvent, Answered, BatchConsistent;
    if o.Emitted? {
      EventsPollNothing(p, o.event);
    }
  }

  lemma EventsPollNothing(p: Protocol, e: AgentEvent)
    requires Inv(p) && AcceptEvent(p, e)
    ensures !PolledEmpty(NextEvent(p, e))
  {
    hide Transcript, AcceptMessage, Answered, BatchConsistent, Terminates, MayEnd;
  }

  lemma {:induction false} LatestPoll(s: Setup, trace: seq<Obs>, i: nat) returns (j: nat)
    requires Legal(s, trace) && i <= |trace| && PolledEmpty(Run(s, trace[..i]))
    ensures j < i && EmptyPoll(trace[j], Run(s, trace[..i]).lastPoll.value)
    ensures forall k | j < k < i :: !trace[k].Emitted? && !trace[k].Polled?
  {
    hide Legal, Accept, Next, Inv;
    assert i > 0;
    StepAt(s, trace, i - 1);
    PolledEmptyStep(s, Run(s, trace[..i - 1]), trace[i - 1]);
    if trace[i - 1].Polled? {
      j := i - 1;
    } else {
      j := LatestPoll(s, trace, i - 1);
    }
  }

  // ---------------------------------------------------------------- event grammar

  /** The turn events in order: true for a start, false for an end. */
  function TurnMarks(trace: seq<Obs>): seq<bool> {
    if trace == [] then []
    else
      TurnMarks(trace[..|trace| - 1]) +
      match trace[|trace| - 1]
      case Emitted(TurnStart) => [true]
      case Emitted(TurnEnd(_, _)) => [false]
      case _ => []
  }

  predicate Alternates(marks: seq<bool>) {
    forall i | 0 <= i < |marks| :: marks[i] == (i % 2 == 0)
  }

  lemma AlternatesAppend(marks: seq<bool>, mark: bool)
    requires Alternates(marks) && mark == (|marks| % 2 == 0)
    ensures Alternates(marks + [mark])
  {}

  function MarkCount(p: Protocol): nat {
    2 * |p.turns| + if p.status.InTurn? then 1 else 0
  }

  /** `turn_start` and `turn_end` alternate, and outside a turn there are as many of one as of the other. */
  lemma {:induction false} TurnsAlternate(s: Setup, trace: seq<Obs>)
    requires Legal(s, trace)
    ensures Alternates(TurnMarks(trace)) && |TurnMarks(trace)| == MarkCount(Run(s, trace))
  {
    hide Run, Legal, Accept, Next, Inv, TurnMarks, Alternates;
    if trace == [] {
      NothingYet(s);
      return;
    }
    var before, o := LastStep(s, trace);
    TurnsAlternate(s, before);
    TurnMarkStep(s, Run(s, before), o);
    TurnMarksAppend(before, o);
    if o == Emitted(TurnStart) {
      AlternatesAppend(TurnMarks(before), true);
    } else if o.Emitted? && o.event.TurnEnd? {
      AlternatesAppend(TurnMarks(before), false);
    } else {
      assert TurnMarks(before) + [] == TurnMarks(before);
    }
  }

  lemma TurnMarksAppend(trace: seq<Obs>, o: Obs)
    ensures TurnMarks(trace + [o]) ==
            TurnMarks(trace)
            + if o == Emitted(TurnStart) then [true] else if o.Emitted? && o.event.TurnEnd? then [false] else []
  {
    assert (trace + [o])[..|trace|] == trace;
  }

  lemma TurnMarkStep(s: Setup, p: Protocol, o: Obs)
    requires Inv(p) && Accept(s, p, o)
    ensures var q := Next(p, o);
            if o == Emitted(TurnStart) then !p.status.InTurn? && q.status.InTurn? && |q.turns| == |p.turns|
            else if o.Emitted? && o.event.TurnEnd? then
              p.status.InTurn? && !q.status.InTurn? && |q.turns| == |p.turns| + 1
            else q.status.InTurn? == p.status.InTurn? && |q.turns| == |p.turns|
  {
    hide Transcript, AcceptTool, AcceptEvent, NextEvent, AcceptPoll, Answered, BatchConsistent;
    if o.Emitted? {
      TurnMarkEventStep(p, o.event);
    }
  }

  lemma TurnMarkEventStep(p: Protocol, e: AgentEvent)
    requires Inv(p) && AcceptEvent(p, e)
    ensures var q := NextEvent(p, e);
            if e.TurnStart? then !p.status.InTurn? && q.status.InTurn? && q.turns == p.turns
            else if e.TurnEnd? then p.status.InTurn? && !q.status.InTurn? && |q.turns| == |p.turns| + 1
            else q.status.InTurn? == p.status.InTurn? && q.turns == p.turns
  {
    hide Transcript, AcceptMessage, Answered, BatchConsistent, Terminates, MayEnd, ClosedTurn;
  }

  /** Until the loop has done anything, the run is not opened. */
  lemma OpeningStep(s: Setup, p: Protocol, o: Obs)
    requires Accept(s, p, o)
    ensures p.status.Unopened? && !IsInput(o) ==> o == Emitted(AgentStart)
    ensures Next(p, o).status.Unopened? <==> p.status.Unopened? && IsInput(o)
  {
    hide Transcript, AcceptTool, AcceptMessage, Answered, Terminates, MayEnd;
  }

  lemma {:induction false} OnlyInputs(s: Setup, trace: seq<Obs>)
    requires Legal(s, trace)
    ensures Run(s, trace).status.Unopened? <==> forall o <- trace :: IsInput(o)
  {
    if trace == [] {
      return;
    }
    hide Run, Legal, Accept, Next, Inv;
    var before, o := LastStep(s, trace);
    OnlyInputs(s, before);
    OpeningStep(s, Run(s, before), o);
  }

  /** The first thing a run does is to emit `agent_start`. */
  lemma StartsWithAgentStart(s: Setup, trace: seq<Obs>, i: nat)
    requires Legal(s, trace) && i < |trace|
    requires !IsInput(trace[i]) && forall j | 0 <= j < i :: IsInput(trace[j])
    ensures trace[i] == Emitted(AgentStart)
  {
    hide Run, Legal, Accept, Next, Inv;
    StepAt(s, trace, i);
    OnlyInputs(s, trace[..i]);
    OpeningStep(s, Run(s, trace[..i]), trace[i]);
  }

  lemma ClosingStep(s: Setup, p: Protocol, o: Obs)
    requires Accept(s, p, o)
    ensures Next(p, o).status.Closed? <==> p.status.Closed? || (o.Emitted? && o.event.AgentEnd?)
    ensures p.status.Closed? ==> IsInput(o)
    ensures Next(p, o).status.Closed? ==> Next(p, o).turns == p.turns
    ensures o.Emitted? && o.event.AgentEnd? ==> o.event.messages == Transcript(p.turns)
  {
    hide AcceptTool, AcceptEvent, NextEvent, Transcript, Answered;
    if o.Emitted? {
      ClosingEventStep(p, o.event);
    }
  }

  lemma ClosingEventStep(p: Protocol, e: AgentEvent)
    requires AcceptEvent(p, e)
    ensures NextEvent(p, e).status.Closed? <==> e.AgentEnd?
    ensures !p.status.Closed?
    ensures e.AgentEnd? ==> e.messages == Transcript(p.turns) && NextEvent(p, e).turns == p.turns
  {
    hide AcceptMessage, Answered, MayEnd, Terminates, ClosedTurn, Transcript;
  }

  /** The last thing a closed run does is to emit `agent_end` with the messages of its turns. */
  lemma {:induction false} EndsWithAgentEnd(s: Setup, trace: seq<Obs>) returns (i: nat)
    requires Legal(s, trace) && Run(s, trace).status.Closed?
    ensures i < |trace| && trace[i] == Emitted(AgentEnd(Transcript(Run(s, trace).turns)))
    ensures forall j | i < j < |trace| :: IsInput(trace[j])
  {
    hide Legal, Accept, Next, Inv;
    var before, o := LastStep(s, trace);
    ClosingStep(s, Run(s, before), o);
    if Run(s, before).status.Closed? {
      i := EndsWithAgentEnd(s, before);
      assert forall j | 0 <= j < |before| :: trace[j] == before[j];
    } else {
      i := |before|;
    }
  }

  /** `agent_start` is emitted once, and after `agent_end` the loop does nothing. */
  lemma RunIsBracketed(s: Setup, trace: seq<Obs>, i: nat, j: nat)
    requires Legal(s, trace) && i < j < |trace| && !IsInput(trace[i])
    ensures trace[j] != Emitted(AgentStart)
    ensures trace[i].Emitted? && trace[i].event.AgentEnd? ==> IsInput(trace[j])
  {
    hide Run, Legal, Accept, Next, Inv;
    StepAt(s, trace, i);
    OpeningStep(s, Run(s, trace[..i]), trace[i]);
    ClosingStep(s, Run(s, trace[..i]), trace[i]);
    StaysOpened(s, trace, i + 1, j);
    StepAt(s, trace, j);
    ClosingStep(s, Run(s, trace[..j]), trace[j]);
    StartsOnce(s, Run(s, trace[..j]), trace[j]);
  }

  lemma StartsOnce(s: Setup, p: Protocol, o: Obs)
    requires Accept(s, p, o) && !p.status.Unopened?
    ensures o != Emitted(AgentStart)
  {}

  lemma {:induction false} StaysOpened(s: Setup, trace: seq<Obs>, i: nat, j: nat)
    requires Legal(s, trace) && i <= j < |trace| && !Run(s, trace[..i]).status.Unopened?
    ensures !Run(s, trace[..j]).status.Unopened?
    ensures Run(s, trace[..i]).status.Closed? ==> Run(s, trace[..j]).status.Closed?
    decreases j - i
  {
    hide Run, Legal, Accept, Next, Inv;
    if i < j {
      StepAt(s, trace, i);
      OpeningStep(s, Run(s, trace[..i]), trace[i]);
      ClosingStep(s, Run(s, trace[..i]), trace[i]);
      StaysOpened(s, trace, i + 1, j);
    }
  }

  // ---------------------------------------------------------------- message brackets

  /**
   * The message events of a trace, cut into brackets: a closed one lists the payloads of its start, its
   * updates and its end, `open` those of the bracket still open. `broken` says that the events do not
   * form brackets one after the other.
   */
  datatype Brackets = Brackets(closed: seq<seq<AgentMessage>>, open: seq<AgentMessage>, broken: bool)

  function Bracket(b: Brackets, e: AgentEvent): Brackets {
    match e
    case MessageStart(m) => if b.open == [] then b.(open := [m]) else b.(broken := true)
    case MessageUpdate(m) => if b.open != [] then b.(open := b.open + [m]) else b.(broken := true)
    case MessageEnd(m) =>
      if b.open != [] then b.(closed := b.closed + [b.open + [m]], open := []) else b.(broken := true)
    case _ => b
  }

  function BracketsOf(trace: seq<Obs>): Brackets {
    if trace == [] then Brackets([], [], false)
    else
      var before, o := BracketsOf(trace[..|trace| - 1]), trace[|trace| - 1];
      if o.Emitted? then Bracket(before, o.event) else before
  }

  function MessageEvents(trace: seq<Obs>): seq<AgentEvent> {
    if trace == [] then []
    else
      var before, o := MessageEvents(trace[..|trace| - 1]), trace[|trace| - 1];
      if o.Emitted? && (o.event.MessageStart? || o.event.MessageUpdate? || o.event.MessageEnd?) then before + [o.event]
      else before
  }

  function OpenEvents(open: seq<AgentMessage>): (events: seq<AgentEvent>)
    ensures |events| == |open|
  {
    seq(|open|, i requires 0 <= i < |open| => if i == 0 then MessageStart(open[0]) else MessageUpdate(open[i]))
  }

  function ClosedEvents(closed: seq<seq<AgentMessage>>): seq<AgentEvent> {
    if closed == [] then []
    else
      var last := closed[|closed| - 1];
      ClosedEvents(closed[..|closed| - 1])
      + (if last == [] then [] else OpenEvents(last[..|last| - 1]) + [MessageEnd(last[|last| - 1])])
  }

  /** Unless they are broken, the brackets of a trace are all its message events, in order. */
  lemma {:induction false} BracketsAreTheEvents(trace: seq<Obs>)
    ensures var b := BracketsOf(trace);
            !b.broken ==> MessageEvents(trace) == ClosedEvents(b.closed) + OpenEvents(b.open)
  {
    if trace != [] {
      var before, o := trace[..|trace| - 1], trace[|trace| - 1];
      BracketsAreTheEvents(before);
      var b := BracketsOf(before);
      if o.Emitted? && o.event.MessageEnd? && b.open != [] {
        var last := b.open + [o.event.message];
        assert last[..|last| - 1] == b.open && (b.closed + [last])[..|b.closed|] == b.closed;
        assert OpenEvents([]) == [];
      } else if o.Emitted? && o.event.MessageUpdate? && b.open != [] {
        assert OpenEvents(b.open + [o.event.message]) == OpenEvents(b.open) + [o.event];
      } else if o.Emitted? && o.event.MessageStart? {
        assert OpenEvents([o.event.message]) == [o.event];
        assert OpenEvents([]) == [];
      }
    }
  }

  function Repeated(mark: bool, n: nat): (marks: seq<bool>)
    ensures |marks| == n && forall i | 0 <= i < n :: marks[i] == mark
  {
    seq(n, i => mark)
  }

  function TurnMessageMarks(t: Turn): seq<bool> {
    Repeated(false, |t.injected|) + [true] + Repeated(false, |t.results|)
  }

  function TranscriptMarks(turns: seq<Turn>): seq<bool> {
    if turns == [] then [] else TranscriptMarks(turns[..|turns| - 1]) + TurnMessageMarks(turns[|turns| - 1])
  }

  /** Which of the messages spoken so far are responses, the others being announced or tool results. */
  function ResponseMarks(p: Protocol): seq<bool> {
    TranscriptMarks(p.turns) + Repeated(false, |p.said|)
    + (if p.response.Some? then [true] else []) + Repeated(false, |p.results|)
  }

  /** A message that is not streamed opens and closes at once; a streamed one is an assistant message throughout. */
  predicate BracketFits(bracket: seq<AgentMessage>, isResponse: bool, m: AgentMessage) {
    && |bracket| >= 2 && bracket[|bracket| - 1] == m
    && (if isResponse then forall i | 0 <= i < |bracket| :: bracket[i].AssistantMessage? else bracket == [m, m])
  }

  predicate ClosedFit(closed: seq<seq<AgentMessage>>, marks: seq<bool>, spoken: seq<AgentMessage>) {
    && |closed| == |marks| == |spoken|
    && forall k | 0 <= k < |closed| :: BracketFits(closed[k], marks[k], spoken[k])
  }

  predicate OpenFits(p: Protocol, open: seq<AgentMessage>) {
    && (open == [] <==> p.open.None?)
    && (p.open.Some? ==>
          open[|open| - 1] == p.open.value
          && if |p.said| == |p.owed| && p.response.None? then forall m <- open :: m.AssistantMessage?
             else open == [p.open.value])
  }

  predicate BracketsFit(p: Protocol, b: Brackets) {
    !b.broken && OpenFits(p, b.open) && ClosedFit(b.closed, ResponseMarks(p), Spoken(p))
  }

  /**
   * Message brackets never nest: in every legal trace the message events are one bracket after the
   * other, each a start, updates and an end. The brackets end with the messages spoken, in order; those
   * of announced messages and tool results carry one and the same message and no updates.
   */
  lemma {:induction false} BracketsNeverNest(s: Setup, trace: seq<Obs>)
    requires Legal(s, trace)
    ensures BracketsFit(Run(s, trace), BracketsOf(trace))
  {
    hide Legal, Accept, Next, Inv, BracketsFit, Bracket;
    if trace == [] {
      NoBrackets(s);
      return;
    }
    var before, o := LastStep(s, trace);
    BracketsNeverNest(s, before);
    BracketsStep(s, Run(s, before), o, BracketsOf(before));
  }

  lemma NoBrackets(s: Setup)
    ensures BracketsFit(Initial(s), Brackets([], [], false))
  {}

  lemma BracketsStep(s: Setup, p: Protocol, o: Obs, b: Brackets)
    requires Inv(p) && Accept(s, p, o) && BracketsFit(p, b)
    ensures BracketsFit(Next(p, o), if o.Emitted? then Bracket(b, o.event) else b)
  {
    hide Transcript, TranscriptMarks, AcceptEvent, NextEvent, Bracket, ClosedFit, Repeated, Inv, AcceptTool;
    if o.Emitted? {
      BracketEventStep(p, o.event, b);
    } else {
      SilentStep(s, p, o);
    }
  }

  lemma SilentStep(s: Setup, p: Protocol, o: Obs)
    requires Inv(p) && Accept(s, p, o) && !o.Emitted?
    ensures var q := Next(p, o);
            && q.open == p.open && q.said == p.said && q.response == p.response && q.results == p.results
            && q.turns == p.turns
            && (p.open.Some? ==> q.owed == p.owed)
  {
    hide Transcript, Spoken, HistoryConsistent, BatchConsistent, TurnConsistent, BatchMode, AcceptTool, AcceptStep,
         NextLog, AcceptStream, NextStream, AcceptPoll;
    if o.Polled? {
      NothingOpenAtPoll(p, o.source);
    }
  }

  lemma NothingOpenAtPoll(p: Protocol, source: Source)
    requires Inv(p) && AcceptPoll(p, source)
    ensures p.open.None?
  {
    hide HistoryConsistent, BatchConsistent;
  }

  lemma BracketEventStep(p: Protocol, e: AgentEvent, b: Brackets)
    requires Inv(p) && AcceptEvent(p, e) && BracketsFit(p, b)
    ensures BracketsFit(NextEvent(p, e), Bracket(b, e))
  {
    hide Spoken, ResponseMarks, AcceptEvent, NextEvent, Inv, OpenFits, BracketFits;
    SpokenEventStep(p, e);
    MarksStep(p, e);
    OpenStep(p, e, b);
    if e.MessageEnd? {
      EndFits(p, e.message, b);
    }
  }

  /** What happens to the open bracket. */
  lemma OpenStep(p: Protocol, e: AgentEvent, b: Brackets)
    requires Inv(p) && AcceptEvent(p, e) && !b.broken && OpenFits(p, b.open)
    ensures !Bracket(b, e).broken && OpenFits(NextEvent(p, e), Bracket(b, e).open)
    ensures !e.MessageEnd? ==> Bracket(b, e).closed == b.closed
  {
    hide Transcript, HistoryConsistent, Answered, MayEnd, Terminates, BatchConsistent;
  }

  predicate EndsResponse(p: Protocol) {
    |p.said| == |p.owed| && p.response.None?
  }

  lemma EndFits(p: Protocol, m: AgentMessage, b: Brackets)
    requires Inv(p) && AcceptEvent(p, MessageEnd(m)) && !b.broken && OpenFits(p, b.open)
    ensures Bracket(b, MessageEnd(m)).closed == b.closed + [b.open + [m]]
    ensures BracketFits(b.open + [m], EndsResponse(p), m)
  {
    hide Transcript, HistoryConsistent, BatchConsistent;
  }

  lemma MarksStep(p: Protocol, e: AgentEvent)
    requires Inv(p) && AcceptEvent(p, e)
    ensures ResponseMarks(NextEvent(p, e)) == ResponseMarks(p) + (if e.MessageEnd? then [EndsResponse(p)] else [])
  {
    hide Transcript, HistoryConsistent, Answered, MayEnd, AcceptMessage, Terminates, TranscriptMarks;
    if e.TurnEnd? {
      MarksAtTurnEnd(p, e.message, e.toolResults);
    } else if e.MessageEnd? {
      MarksAtMessageEnd(p, e.message);
    }
  }

  lemma MarksAtMessageEnd(p: Protocol, m: AgentMessage)
    requires Inv(p) && AcceptEvent(p, MessageEnd(m))
    ensures ResponseMarks(NextEvent(p, MessageEnd(m))) == ResponseMarks(p) + [EndsResponse(p)]
  {
    hide Transcript, HistoryConsistent, TranscriptMarks, Repeated;
    OneMoreMark(|p.said|);
    OneMoreMark(|p.results|);
    var marks, said := TranscriptMarks(p.turns), Repeated(false, |p.said|);
    assert Repeated(false, 0) == [];
    if |p.said| < |p.owed| {
      assert marks + (said + [false]) + [] + [] == marks + said + [] + [] + [false];
    } else if p.response.None? {
      assert marks + said + [true] + [] == marks + said + [] + [] + [true];
    } else {
      var results := Repeated(false, |p.results|);
      assert marks + said + [true] + (results + [false]) == marks + said + [true] + results + [false];
    }
  }

  lemma OneMoreMark(n: nat)
    ensures Repeated(false, n + 1) == Repeated(false, n) + [false]
  {}

  lemma MarksAtTurnEnd(p: Protocol, m: AgentMessage, toolResults: seq<AgentMessage>)
    requires Inv(p) && AcceptEvent(p, TurnEnd(m, toolResults))
    ensures ResponseMarks(NextEvent(p, TurnEnd(m, toolResults))) == ResponseMarks(p)
  {
    hide Transcript, HistoryConsistent, Answered, TranscriptMarks, Terminates;
    MarksGrow(p.turns, ClosedTurn(p, m));
  }

  lemma MarksGrow(turns: seq<Turn>, t: Turn)
    ensures TranscriptMarks(turns + [t]) == TranscriptMarks(turns) + TurnMessageMarks(t)
  {
    assert (turns + [t])[..|turns|] == turns;
  }

  /** More trace only adds closed brackets. */
  lemma {:induction false} ClosedStays(trace: seq<Obs>, n: nat)
    requires n <= |trace|
    ensures BracketsOf(trace[..n]).closed <= BracketsOf(trace).closed
  {
    if n == |trace| {
      assert trace[..n] == trace;
    } else {
      ClosedStays(trace[..|trace| - 1], n);
      assert trace[..|trace| - 1][..n] == trace[..n];
    }
  }

  /** Between two points of a run listeners saw one more bracket, which ended with `m`. */
  predicate OneBracketMore(before: seq<Obs>, after: seq<Obs>, m: AgentMessage) {
    var earlier, later := BracketsOf(before).closed, BracketsOf(after).closed;
    && |later| == |earlier| + 1 && earlier <= later
    && |later[|earlier|]| >= 2 && later[|earlier|][|later[|earlier|]| - 1] == m
    && !BracketsOf(after).broken && BracketsOf(before).open == BracketsOf(after).open == []
  }

  /** One more message spoken is exactly one more bracket. */
  lemma OneMoreBracket(s: Setup, before: seq<Obs>, after: seq<Obs>, m: AgentMessage)
    requires Legal(s, after) && before <= after
    requires Run(s, before).open.None? && Run(s, after).open.None?
    requires Spoken(Run(s, after)) == Spoken(Run(s, before)) + [m]
    ensures OneBracketMore(before, after, m)
  {
    hide Run, Legal, Spoken, ResponseMarks;
    assert before == after[..|before|];
    LegalPrefix(s, after, |before|);
    BracketsNeverNest(s, before);
    BracketsNeverNest(s, after);
    ClosedStays(after, |before|);
  }

  // ---------------------------------------------------------------- responses

  /** What was learnt of the stream since the last turn ended. */
  function StreamSteps(trace: seq<Obs>): seq<StreamStep> {
    if trace == [] then []
    else
      match trace[|trace| - 1]
      case Emitted(TurnEnd(_, _)) => []
      case StreamObserved(step) => StreamSteps(trace[..|trace| - 1]) + [step]
      case _ => StreamSteps(trace[..|trace| - 1])
  }

  /** The partials of a stream: that of its start, and those of the updates that follow it. */
  function Partials(steps: seq<StreamStep>): seq<AgentMessage> {
    if steps == [] then []
    else
      var before := Partials(steps[..|steps| - 1]);
      match steps[|steps| - 1]
      case ItemSeen(StartItem(partial)) => before + [partial]
      case ItemSeen(UpdateItem(partial)) => if before == [] then [] else before + [partial]
      case _ => before
  }

  function TerminalIn(steps: seq<StreamStep>): Option<AgentMessage> {
    if steps == [] then None
    else
      match steps[|steps| - 1]
      case ItemSeen(TerminalItem(message)) => Some(message)
      case _ => TerminalIn(steps[..|steps| - 1])
  }

  function ResultIn(steps: seq<StreamStep>): Option<Awaited<AgentMessage>> {
    if steps == [] then None
    else
      match steps[|steps| - 1]
      case ResultSettled(outcome) => Some(outcome)
      case _ => ResultIn(steps[..|steps| - 1])
  }

  /** The message is the latest partial, or an empty one, marked aborted. */
  predicate MarkedAborted(m: AgentMessage, partials: seq<AgentMessage>) {
    && m.AssistantMessage? && m.stopReason == Aborted && m.errorMessage == Some("Request was aborted")
    && (if partials == [] then m.text == "" && m.toolCalls == []
        else
          var latest := partials[|partials| - 1];
          latest.AssistantMessage? && m.text == latest.text && m.toolCalls == latest.toolCalls)
  }

  /** What the steps of a stream come to as a response. */
  predicate ComesTo(steps: seq<StreamStep>, aborted: bool, m: AgentMessage) {
    match ResultIn(steps)
    case Some(Done(reply)) => m == reply
    case Some(Threw(error)) =>
      aborted && error.abortLike
      && if TerminalIn(steps).Some? then m == TerminalIn(steps).value else MarkedAborted(m, Partials(steps))
    case None => aborted && TerminalIn(steps).None? && MarkedAborted(m, Partials(steps))
  }

  /** The protocol's stream is what the trace says of it. */
  predicate StreamFits(p: Protocol, steps: seq<StreamStep>) {
    && p.stream.partial == (if Partials(steps) == [] then None else Some(Partials(steps)[|Partials(steps)| - 1]))
    && p.stream.terminal == TerminalIn(steps) && p.stream.result == ResultIn(steps)
    && (p.stream.terminal.Some? ==> p.stream.over)
  }

  lemma StreamStepFits(p: Protocol, step: StreamStep, steps: seq<StreamStep>)
    requires StreamFits(p, steps)
    ensures StreamFits(p.(stream := NextStream(p.stream, step)), steps + [step])
  {
    assert (steps + [step])[..|steps|] == steps;
  }

  lemma OtherKeepsStream(s: Setup, p: Protocol, o: Obs, steps: seq<StreamStep>)
    requires Accept(s, p, o) && !o.StreamObserved? && StreamFits(p, steps)
    ensures StreamFits(Next(p, o), if o.Emitted? && o.event.TurnEnd? then [] else steps)
  {
    hide Transcript, AcceptTool, AcceptEvent, AcceptPoll, AcceptStep, NextLog, ClosedTurn, Partials, TerminalIn,
         ResultIn;
    NoSteps();
  }

  lemma NoSteps()
    ensures Partials([]) == [] && TerminalIn([]) == None && ResultIn([]) == None
  {}

  lemma {:induction false} StreamIsRead(s: Setup, trace: seq<Obs>)
    requires Legal(s, trace)
    ensures StreamFits(Run(s, trace), StreamSteps(trace))
  {
    hide Legal, Accept, Next, NextStream, Inv, StreamFits;
    if trace == [] {
      StreamAtStart(s);
      return;
    }
    var before, o := LastStep(s, trace);
    StreamIsRead(s, before);
    if o.StreamObserved? {
      StreamStepFits(Run(s, before), o.streamStep, StreamSteps(before));
      StreamObservedNext(Run(s, before), o);
    } else {
      OtherKeepsStream(s, Run(s, before), o, StreamSteps(before));
    }
  }

  lemma StreamAtStart(s: Setup)
    ensures StreamFits(Initial(s), [])
  {}

  lemma StreamObservedNext(p: Protocol, o: Obs)
    requires o.StreamObserved?
    ensures Next(p, o) == p.(stream := NextStream(p.stream, o.streamStep))
  {}

  /** The response of the open turn is what the stream came to. */
  predicate ReplyFits(p: Protocol) {
    p.response.Some? ==> FinalReply(p.stream, p.aborted, p.response.value)
  }

  lemma ReplyStep(s: Setup, p: Protocol, o: Obs)
    requires Inv(p) && Accept(s, p, o) && ReplyFits(p)
    ensures ReplyFits(Next(p, o))
  {
    hide Transcript, AcceptTool, AcceptEvent, NextEvent, AcceptPoll, AcceptStep, NextLog, FinalReply, HistoryConsistent,
         BatchConsistent, Spoken;
    AbortKeepsReply(p);
    if o.Emitted? {
      ReplyEventStep(p, o.event);
    }
  }

  lemma AbortKeepsReply(p: Protocol)
    ensures ReplyFits(p) ==> ReplyFits(p.(aborted := true))
  {}

  lemma ReplyEventStep(p: Protocol, e: AgentEvent)
    requires Inv(p) && AcceptEvent(p, e) && ReplyFits(p)
    ensures ReplyFits(NextEvent(p, e))
  {
    hide Transcript, MayEnd, Answered, HistoryConsistent, BatchConsistent, Terminates, ClosedTurn, FinalReply;
  }

  lemma {:induction false} ResponseFits(s: Setup, trace: seq<Obs>)
    requires Legal(s, trace)
    ensures ReplyFits(Run(s, trace))
  {
    hide Legal, Accept, Next, Inv, ReplyFits;
    if trace == [] {
      NoReply(s);
      return;
    }
    var before, o := LastStep(s, trace);
    ResponseFits(s, before);
    ReplyStep(s, Run(s, before), o);
  }

  lemma NoReply(s: Setup)
    ensures ReplyFits(Initial(s))
  {}

  /**
   * The response that closes a turn is the value the stream's result settled with in that turn. Only in an
   * aborted run may it be anything else: the terminal event's message if the result threw the abort
   * error, and the latest partial marked aborted if there was no terminal event.
   */
  lemma ResponseIsTheResult(s: Setup, trace: seq<Obs>, i: nat)
    requires Legal(s, trace) && i < |trace| && trace[i].Emitted? && trace[i].event.TurnEnd?
    ensures ComesTo(StreamSteps(trace[..i]), AbortSignalled in trace[..i], trace[i].event.message)
  {
    hide Run, Legal, Next, Inv, Transcript, Terminates, Partials, TerminalIn, ResultIn, StreamSteps;
    StepAt(s, trace, i);
    StreamIsRead(s, trace[..i]);
    ResponseFits(s, trace[..i]);
    AbortRemembered(s, trace[..i]);
  }

  /** In one turn: what the result settled with is the response, whatever came between. */
  lemma SettledResultIsTheResponse(s: Setup, trace: seq<Obs>, j: nat, i: nat, reply: AssistantReply)
    requires Legal(s, trace) && j < i < |trace| && trace[j] == StreamObserved(ResultSettled(Done(reply)))
    requires trace[i].Emitted? && trace[i].event.TurnEnd? && WithinTurn(trace, j, i)
    ensures trace[i].event.message == reply
  {
    hide Run, Legal, Next, Inv, Transcript, Terminates, FinalReply;
    StepAt(s, trace, i);
    StepAt(s, trace, j);
    ResponseFits(s, trace[..i]);
    SettledNext(Run(s, trace[..j]), trace[j]);
    ResultStays(s, trace, j + 1, i);
    SettledReply(Run(s, trace[..i]).stream, Run(s, trace[..i]).aborted, trace[i].event.message);
  }

  lemma SettledReply(t: Stream, aborted: bool, m: AgentMessage)
    requires FinalReply(t, aborted, m)
    ensures t.result.Some? && t.result.value.Done? ==> m == t.result.value.value
  {}

  lemma SettledNext(p: Protocol, o: Obs)
    requires o.StreamObserved? && o.streamStep.ResultSettled?
    ensures Next(p, o).stream.result == Some(o.streamStep.outcome)
  {}

  lemma {:induction false} ResultStays(s: Setup, trace: seq<Obs>, j: nat, i: nat)
    requires Legal(s, trace) && j <= i <= |trace| && WithinTurn(trace, j, i)
    requires Run(s, trace[..j]).stream.result.Some?
    ensures Run(s, trace[..i]).stream.result == Run(s, trace[..j]).stream.result
    decreases i - j
  {
    hide Run, Legal, Accept, Next, Inv;
    if j < i {
      StepAt(s, trace, j);
      ResultStep(s, Run(s, trace[..j]), trace[j]);
      ResultStays(s, trace, j + 1, i);
    }
  }

  lemma ResultStep(s: Setup, p: Protocol, o: Obs)
    requires Accept(s, p, o) && p.stream.result.Some? && !(o.Emitted? && o.event.TurnEnd?)
    ensures Next(p, o).stream.result == p.stream.result
  {
    hide Transcript, AcceptTool, AcceptEvent, AcceptPoll, AcceptStep, NextLog, ClosedTurn;
  }

  /** Listeners have been shown the partials so far, but for one that is just being shown. */
  predicate ShownFits(p: Protocol, open: seq<AgentMessage>, partials: seq<AgentMessage>) {
    && (p.stream.partial.Some? <==> partials != []) && (partials == [] ==> p.stream.shown)
    && (partials != [] ==> p.called && p.status.InTurn? && |p.said| == |p.owed|)
    && (partials != [] && p.response.None? ==>
          partials == open + if p.stream.shown then [] else [p.stream.partial.value])
  }

  lemma StreamStepShown(s: Setup, p: Protocol, o: Obs, open: seq<AgentMessage>, steps: seq<StreamStep>)
    requires Accept(s, p, o) && o.StreamObserved? && ShownFits(p, open, Partials(steps)) && OpenFits(p, open)
    ensures ShownFits(Next(p, o), open, Partials(steps + [o.streamStep]))
  {
    assert (steps + [o.streamStep])[..|steps|] == steps;
  }

  lemma OtherStepShown(s: Setup, p: Protocol, o: Obs, b: Brackets, partials: seq<AgentMessage>)
    requires Inv(p) && Accept(s, p, o) && !o.StreamObserved? && !o.Emitted? && ShownFits(p, b.open, partials)
    ensures ShownFits(Next(p, o), b.open, partials)
  {
    hide Transcript, AcceptTool, AcceptEvent, NextEvent, AcceptStep, NextLog, Spoken, HistoryConsistent,
         BatchConsistent;
  }

  lemma EventShown(p: Protocol, e: AgentEvent, b: Brackets, partials: seq<AgentMessage>)
    requires Inv(p) && AcceptEvent(p, e) && OpenFits(p, b.open) && !b.broken && ShownFits(p, b.open, partials)
    ensures ShownFits(NextEvent(p, e), Bracket(b, e).open, if e.TurnEnd? then [] else partials)
  {
    hide Transcript, MayEnd, Answered, HistoryConsistent, BatchConsistent, Terminates, ClosedTurn, FinalReply;
  }

  lemma {:induction false} ShownIsRead(s: Setup, trace: seq<Obs>)
    requires Legal(s, trace)
    ensures ShownFits(Run(s, trace), BracketsOf(trace).open, Partials(StreamSteps(trace)))
  {
    hide Legal, Accept, Next, NextEvent, Inv, ShownFits, Bracket, Partials;
    if trace == [] {
      NothingShown(s);
      return;
    }
    var before, o := LastStep(s, trace);
    ShownIsRead(s, before);
    BracketsNeverNest(s, before);
    var p, b := Run(s, before), BracketsOf(before);
    if o.StreamObserved? {
      StreamStepShown(s, p, o, b.open, StreamSteps(before));
    } else if o.Emitted? {
      EventAccepted(s, p, o);
      EventShown(p, o.event, b, Partials(StreamSteps(before)));
      NoSteps();
    } else {
      OtherStepShown(s, p, o, b, Partials(StreamSteps(before)));
    }
  }

  /**
   * Whenever anything more is learnt of a stream, and when its response ends, listeners have been shown each
   * of its partials so far, once and in order.
   */
  lemma ListenersSeeThePartials(s: Setup, trace: seq<Obs>, i: nat)
    requires Legal(s, trace) && i < |trace|
    requires trace[i].StreamObserved? || (trace[i].Emitted? && trace[i].event.MessageEnd?)
    ensures var p, open, partials := Run(s, trace[..i]), BracketsOf(trace[..i]).open, Partials(StreamSteps(trace[..i]));
            if trace[i].StreamObserved? then open == partials
            else partials != [] && p.response.None? ==> open == partials
  {
    hide Run, Legal, Next, Inv, Transcript, Partials, StreamSteps, BracketsOf;
    StepAt(s, trace, i);
    ShownIsRead(s, trace[..i]);
    BracketsNeverNest(s, trace[..i]);
  }

  lemma NothingShown(s: Setup)
    ensures ShownFits(Initial(s), [], Partials([]))
  {}

  lemma EventAccepted(s: Setup, p: Protocol, o: Obs)
    requires Accept(s, p, o) && o.Emitted?
    ensures AcceptEvent(p, o.event) && Next(p, o) == NextEvent(p, o.event)
  {}
  // ---------------------------------------------------------------- broken contracts

  predicate Starts(o: Obs) {
    o.StreamObserved? && o.streamStep.ItemSeen? && o.streamStep.item.StartItem?
  }

  /** A stream emitted `start` twice in one turn. */
  predicate StartedTwice(trace: seq<Obs>) {
    exists i, j | 0 <= i < j < |trace| :: Starts(trace[i]) && Starts(trace[j]) && WithinTurn(trace, i, j)
  }

  predicate WithinTurn(trace: seq<Obs>, i: nat, j: nat)
    requires i <= j <= |trace|
  {
    forall k | i <= k < j :: !(trace[k].Emitted? && trace[k].event.TurnEnd?)
  }

  predicate RejectsAbortLike(o: Obs) {
    o.ListenerRejected? && o.error.abortLike
  }

  /** A listener rejected with an abort error, in an aborted run, while a response was being delivered. */
  predicate RejectedWhileAborted(trace: seq<Obs>) {
    exists i, j | 0 <= i < j < |trace| ::
      && trace[i].ProviderCalled? && RejectsAbortLike(trace[j]) && WithinTurn(trace, i, j)
      && (forall k | i <= k < j :: !trace[k].BatchDispatched?) && AbortSignalled in trace[..j]
  }

  lemma RememberStep(s: Setup, p: Protocol, o: Obs)
    ensures Next(p, o).stream.partial.Some? ==>
              Starts(o) || (p.stream.partial.Some? && !(o.Emitted? && o.event.TurnEnd?))
    ensures Responding(Next(p, o)) ==>
              o.ProviderCalled? || (Responding(p) && !(o.Emitted? && o.event.TurnEnd?) && !o.BatchDispatched?)
  {
    hide NextEvent;
    if o.Emitted? {
      RememberEventStep(p, o.event);
    }
  }

  lemma RememberEventStep(p: Protocol, e: AgentEvent)
    ensures var q := NextEvent(p, e);
            if e.TurnEnd? then q.stream.partial.None? && !q.called
            else q.stream.partial == p.stream.partial && q.called == p.called && q.batch == p.batch
  {
    hide ClosedTurn;
  }

  lemma {:induction false} StartRemembered(s: Setup, trace: seq<Obs>) returns (i: nat)
    requires Run(s, trace).stream.partial.Some?
    ensures i < |trace| && Starts(trace[i]) && WithinTurn(trace, i, |trace|)
  {
    hide Next;
    var last := |trace| - 1;
    RememberStep(s, Run(s, trace[..last]), trace[last]);
    if Starts(trace[last]) {
      i := last;
    } else {
      i := StartRemembered(s, trace[..last]);
      assert forall k | 0 <= k < last :: trace[..last][k] == trace[k];
    }
  }

  lemma {:induction false} CallRemembered(s: Setup, trace: seq<Obs>) returns (i: nat)
    requires Responding(Run(s, trace))
    ensures i < |trace| && trace[i].ProviderCalled? && WithinTurn(trace, i, |trace|)
    ensures forall k | i <= k < |trace| :: !trace[k].BatchDispatched?
  {
    hide Next, Responding;
    NotResponding(s);
    var last := |trace| - 1;
    RememberStep(s, Run(s, trace[..last]), trace[last]);
    if trace[last].ProviderCalled? {
      i := last;
    } else {
      i := CallRemembered(s, trace[..last]);
      assert forall k | 0 <= k < last :: trace[..last][k] == trace[k];
    }
  }

  lemma NotResponding(s: Setup)
    ensures !Responding(Initial(s))
  {}

  lemma {:induction false} AbortRemembered(s: Setup, trace: seq<Obs>)
    ensures Run(s, trace).aborted <==> AbortSignalled in trace
  {
    if trace != [] {
      hide Next;
      AbortRemembered(s, trace[..|trace| - 1]);
      assert trace == trace[..|trace| - 1] + [trace[|trace| - 1]];
    }
  }

  lemma {:induction false} LegalIsNotExcused(s: Setup, trace: seq<Obs>)
    ensures Legal(s, trace) ==> !Excused(s, trace)
  {
    hide Run, Accept, Next;
    if trace != [] {
      var before, o := trace[..|trace| - 1], trace[|trace| - 1];
      LegalIsNotExcused(s, before);
      BreachIsRefused(s, Run(s, before), o);
    }
  }

  lemma BreachIsRefused(s: Setup, p: Protocol, o: Obs)
    ensures Breach(p, o) ==> !Accept(s, p, o)
  {}

  /** A trace is excused only by something anyone can see in it that the loop did not do. */
  lemma {:induction false} ExcusesAreVisible(s: Setup, trace: seq<Obs>)
    requires Excused(s, trace)
    ensures StartedTwice(trace) || RejectedWhileAborted(trace)
  {
    hide Run, Legal, Next;
    var last := |trace| - 1;
    var before, o := trace[..last], trace[last];
    assert forall k | 0 <= k < last :: before[k] == trace[k];
    if Excused(s, before) {
      ExcusesAreVisible(s, before);
      if StartedTwice(before) {
        var i, j :| 0 <= i < j < last && Starts(before[i]) && Starts(before[j])
          && WithinTurn(before, i, j);
        assert WithinTurn(trace, i, j);
      } else {
        var i, j :| 0 <= i < j < last && before[i].ProviderCalled? && RejectsAbortLike(before[j])
          && WithinTurn(before, i, j) && (forall k | i <= k < j :: !before[k].BatchDispatched?)
          && AbortSignalled in before[..j];
        assert WithinTurn(trace, i, j) && trace[..j] == before[..j];
      }
    } else if Starts(o) {
      var i := StartRemembered(s, before);
      assert WithinTurn(trace, i, last);
    } else {
      var i := CallRemembered(s, before);
      AbortRemembered(s, before);
      assert WithinTurn(trace, i, last) && trace[..last] == before;
    }
  }

  // ---------------------------------------------------------------- tool events

  /** The events of the k-th call since its batch was dispatched. */
  function CallEvents(trace: seq<Obs>, k: nat): seq<AgentEvent> {
    if trace == [] then []
    else
      match trace[|trace| - 1]
      case BatchDispatched(_) => []
      case ToolEmitted(call, e) => CallEvents(trace[..|trace| - 1], k) + if call == k then [e] else []
      case _ => CallEvents(trace[..|trace| - 1], k)
  }

  /** One start, then updates, all of this call; `ended` adds one end, after which there is nothing. */
  predicate Bracketed(events: seq<AgentEvent>, call: ToolCall, ended: Option<CallState>) {
    var n := if ended.Some? then |events| - 1 else |events|;
    && n >= 1 && events[0] == ToolExecutionStart(call.id, call.name, call.arguments)
    && (forall i | 1 <= i < n ::
          events[i].ToolExecutionUpdate? && events[i].toolCallId == call.id && events[i].toolName == call.name)
    && (ended.Some? ==>
          ended.value.Ended?
            && events[n] == ToolExecutionEnd(call.id, call.name, ended.value.output, ended.value.isError))
  }

  /** What the events of the k-th call must look like, given how far the protocol says the call is. */
  predicate CallEventsFit(p: Protocol, k: nat, events: seq<AgentEvent>) {
    && p.response.Some? && |p.calls| <= |CallsOf(p.response.value)|
    && (if k >= |p.calls| then events == []
        else Bracketed(events, CallsOf(p.response.value)[k], if p.calls[k].Running? then None else Some(p.calls[k])))
  }

  lemma ToolEventStep(s: Setup, p: Protocol, call: nat, e: AgentEvent, k: nat, events: seq<AgentEvent>)
    requires Inv(p) && Accept(s, p, ToolEmitted(call, e)) && CallEventsFit(p, k, events)
    ensures CallEventsFit(Next(p, ToolEmitted(call, e)), k, events + if call == k then [e] else [])
  {
    hide Transcript, AcceptEvent, NextEvent, AcceptPoll, HistoryConsistent, Answered, EndOf, TurnConsistent, NextLog;
  }

  lemma OtherEventStep(s: Setup, p: Protocol, o: Obs, k: nat, events: seq<AgentEvent>)
    requires Inv(p) && Accept(s, p, o) && !o.ToolEmitted? && !o.BatchDispatched?
    requires Next(p, o).batch.Some?
    ensures p.batch.Some? && (CallEventsFit(p, k, events) ==> CallEventsFit(Next(p, o), k, events))
  {
    hide AcceptTool, AcceptPoll, AcceptEvent, NextEvent, HistoryConsistent, Bracketed;
    if o.Emitted? {
      EventKeepsBatch(p, o.event);
    }
  }

  lemma EventKeepsBatch(p: Protocol, e: AgentEvent)
    requires Inv(p) && AcceptEvent(p, e) && NextEvent(p, e).batch.Some?
    ensures p.batch.Some? && NextEvent(p, e).calls == p.calls && NextEvent(p, e).logs == p.logs
    ensures NextEvent(p, e).response == p.response
  {
    hide AcceptMessage, HistoryConsistent, Transcript, Answered, MayEnd, Terminates;
  }

  /**
   * At every point of a batch, sequential or parallel and however its tasks interleave, a call that
   * has not started has no events, a running one has a start and updates, and an ended one has one
   * start, then updates, then one end, and nothing more.
   */
  lemma {:induction false} CallEventsAreBracketed(s: Setup, trace: seq<Obs>, k: nat)
    requires Legal(s, trace) && Run(s, trace).batch.Some?
    ensures CallEventsFit(Run(s, trace), k, CallEvents(trace, k))
  {
    hide Legal, Accept, Inv, CallEventsFit;
    var before, o := LastStep(s, trace);
    match o
    case BatchDispatched(_) =>
      DispatchFits(s, Run(s, before), o, k);
    case ToolEmitted(call, e) =>
      ToolNeedsBatch(s, Run(s, before), o);
      CallEventsAreBracketed(s, before, k);
      ToolEventStep(s, Run(s, before), call, e, k, CallEvents(before, k));
      assert CallEvents(trace, k) == CallEvents(before, k) + if call == k then [e] else [];
    case _ =>
      OtherEventStep(s, Run(s, before), o, k, CallEvents(before, k));
      CallEventsAreBracketed(s, before, k);
  }

  lemma ToolNeedsBatch(s: Setup, p: Protocol, o: Obs)
    requires Accept(s, p, o) && o.ToolEmitted?
    ensures p.batch.Some?
  {
    hide AcceptTool;
  }

  lemma DispatchFits(s: Setup, p: Protocol, o: Obs, k: nat)
    requires Inv(p) && Accept(s, p, o) && o.BatchDispatched?
    ensures CallEventsFit(Next(p, o), k, [])
  {
    hide HistoryConsistent, TurnConsistent;
  }

  /**
   * In a parallel batch every tool event comes before the first result message, all calls have been
   * started and have ended by then, and the turn ends with one result per call.
   */
  lemma ParallelEventsPrecedeResults(s: Setup, trace: seq<Obs>, i: nat)
    requires Legal(s, trace) && i < |trace|
    requires Run(s, trace[..i]).batch == Some(Parallel) && Run(s, trace[..i]).response.Some?
    ensures trace[i].ToolEmitted? ==> Run(s, trace[..i]).results == []
    ensures trace[i].Emitted? && trace[i].event.MessageStart? ==>
              var p := Run(s, trace[..i]);
              |p.calls| == |CallsOf(p.response.value)| && NoneRunning(p.calls)
              && |p.results| < |p.calls| && IsResultOf(trace[i].event.message, CallsOf(p.response.value)[|p.results|])
    ensures trace[i].Emitted? && trace[i].event.TurnEnd? ==>
              |trace[i].event.toolResults| == |CallsOf(trace[i].event.message)|
  {
    hide Run, Legal, Transcript, Next, HistoryConsistent;
    StepAt(s, trace, i);
  }

  // ---------------------------------------------------------------- tools

  /** What a trace says of the k-th call since its batch was dispatched. */
  function LogOf(trace: seq<Obs>, k: nat): CallLog {
    if trace == [] then NO_LOG
    else
      match trace[|trace| - 1]
      case BatchDispatched(_) => NO_LOG
      case CallObserved(call, step) =>
        var before := LogOf(trace[..|trace| - 1], k);
        if call == k then NextLog(before, step) else before
      case _ => LogOf(trace[..|trace| - 1], k)
  }

  function Log(p: Protocol, k: nat): CallLog {
    if k < |p.logs| then p.logs[k] else NO_LOG
  }

  lemma LogStep(s: Setup, p: Protocol, o: Obs, k: nat)
    requires Inv(p) && Accept(s, p, o) && Next(p, o).batch.Some?
    ensures o.BatchDispatched? ==> Log(Next(p, o), k) == NO_LOG
    ensures !o.BatchDispatched? ==>
              p.batch.Some?
              && Log(Next(p, o), k) == (if o.CallObserved? && o.call == k then NextLog(Log(p, k), o.callStep)
                                        else Log(p, k))
  {
    hide AcceptEvent, NextEvent, AcceptPoll, HistoryConsistent, Spoken, TurnConsistent, NextLog, EndOf;
    if o.Emitted? {
      EventKeepsBatch(p, o.event);
    }
  }

  /** The protocol remembers of each call exactly what the trace says. */
  lemma {:induction false} LogsAreRead(s: Setup, trace: seq<Obs>, k: nat)
    requires Legal(s, trace) && Run(s, trace).batch.Some?
    ensures Log(Run(s, trace), k) == LogOf(trace, k)
  {
    hide Legal, Accept, Next, Inv, Log, NextLog;
    var before, o := LastStep(s, trace);
    LogStep(s, Run(s, before), o, k);
    if !o.BatchDispatched? {
      LogsAreRead(s, before, k);
    }
  }

  /** What is known of a call fits together; without an abort it was executed only as its tool and its updates say. */
  predicate LogSound(s: Setup, log: CallLog, aborted: bool) {
    && (log.settled.Some? || log.rejected.Some? ==> log.invoked)
    && (log.drained.Some? ==> log.settled.Some? && (!aborted ==> log.drained.value == log.rejected))
    && (log.invoked || log.executed.Some? ==> Cleared(s, log))
    && (log.executed.Some? && !aborted ==> Execution(log, false) == log.executed)
    && (log.after.Some? ==> log.executed.Some?)
  }

  predicate LogsSound(s: Setup, p: Protocol) {
    && (forall k | 0 <= k < |p.logs| :: LogSound(s, p.logs[k], p.aborted))
    && (p.batch.Some? ==>
          forall k | 0 <= k < |p.logs| && p.logs[k] != NO_LOG ::
            p.response.Some? && k < |CallsOf(p.response.value)|
            && FindTool(s.tools, CallsOf(p.response.value)[k].name).Some?)
  }

  lemma SoundStep(s: Setup, p: Protocol, k: nat, step: CallStep)
    requires InBatch(p) && AcceptStep(s, p, k, step) && (k < |p.logs| ==> LogSound(s, p.logs[k], p.aborted))
    ensures k < |p.logs| && LogSound(s, NextLog(p.logs[k], step), p.aborted)
  {
    hide FindTool;
  }

  lemma KnownToolStep(s: Setup, p: Protocol, k: nat, step: CallStep)
    requires Inv(p) && InBatch(p) && AcceptStep(s, p, k, step) && LogsSound(s, p)
    ensures FindTool(s.tools, CallsOf(p.response.value)[k].name).Some?
  {
    hide FindTool, LogSound, Execution, HistoryConsistent, TurnConsistent;
    assert p.logs[k] == NO_LOG ==> step.ArgumentsChecked? || !Cleared(s, NO_LOG);
  }

  lemma LogsSoundStep(s: Setup, p: Protocol, o: Obs)
    requires Inv(p) && Accept(s, p, o) && LogsSound(s, p)
    ensures LogsSound(s, Next(p, o))
  {
    hide AcceptEvent, NextEvent, AcceptPoll, AcceptTool, AcceptStep, NextLog, LogSound, FindTool, HistoryConsistent,
         Spoken, AcceptStream, NextStream;
    match o
    case CallObserved(k, step) => SoundCallStep(s, p, k, step);
    case AbortSignalled =>
      forall k | 0 <= k < |p.logs| ensures LogSound(s, p.logs[k], true) {
        SoundUnderAbort(s, p.logs[k], p.aborted);
      }
    case Emitted(e) => SoundEventStep(s, p, e);
    case ToolEmitted(_, _) => NothingKnownIsSound(s, p.aborted);
    case _ =>
  }

  lemma SoundCallStep(s: Setup, p: Protocol, k: nat, step: CallStep)
    requires Inv(p) && InBatch(p) && AcceptStep(s, p, k, step) && LogsSound(s, p)
    ensures LogsSound(s, Next(p, CallObserved(k, step)))
  {
    hide AcceptStep, NextLog, LogSound, FindTool, HistoryConsistent, TurnConsistent, NextEvent, NextStream;
    SoundStep(s, p, k, step);
    KnownToolStep(s, p, k, step);
  }

  lemma SoundUnderAbort(s: Setup, log: CallLog, aborted: bool)
    requires LogSound(s, log, aborted)
    ensures LogSound(s, log, true)
  {}

  lemma NothingKnownIsSound(s: Setup, aborted: bool)
    ensures LogSound(s, NO_LOG, aborted)
  {}

  lemma SoundEventStep(s: Setup, p: Protocol, e: AgentEvent)
    requires Inv(p) && AcceptEvent(p, e) && LogsSound(s, p)
    ensures LogsSound(s, NextEvent(p, e))
  {
    hide AcceptMessage, HistoryConsistent, Transcript, Answered, MayEnd, Terminates, LogSound, FindTool, ClosedTurn;
  }

  lemma {:induction false} LogsAreSound(s: Setup, trace: seq<Obs>)
    requires Legal(s, trace)
    ensures LogsSound(s, Run(s, trace))
  {
    hide Legal, Accept, Next, Inv, LogSound;
    if trace == [] {
      return;
    }
    var before, o := LastStep(s, trace);
    LogsAreSound(s, before);
    LogsSoundStep(s, Run(s, before), o);
  }

  /** From the dispatch of a batch at `d` up to `i` no other batch was dispatched and the turn did not end. */
  predicate SameBatch(trace: seq<Obs>, d: nat, i: nat) {
    d < i <= |trace| && trace[d].BatchDispatched? && WithinTurn(trace, d, i)
    && forall x | d < x < i :: !trace[x].BatchDispatched?
  }

  predicate Rejects(o: Obs, k: nat) {
    o.CallObserved? && o.call == k && o.callStep.UpdateRejected?
  }

  lemma OneMoreRead(trace: seq<Obs>, i: nat, k: nat)
    requires i < |trace|
    ensures LogOf(trace[..i + 1], k) ==
            match trace[i] {
              case BatchDispatched(_) => NO_LOG
              case CallObserved(call, step) =>
                if call == k then NextLog(LogOf(trace[..i], k), step) else LogOf(trace[..i], k)
              case _ => LogOf(trace[..i], k)
            }
  {
    assert trace[..i + 1][..i] == trace[..i];
  }

  lemma {:induction false} AfterRemembered(trace: seq<Obs>, d: nat, i: nat, k: nat) returns (h: nat)
    requires SameBatch(trace, d, i) && LogOf(trace[..i], k).after.Some?
    ensures d < h < i && trace[h] == CallObserved(k, AfterHookAnswered(LogOf(trace[..i], k).after.value))
    decreases i
  {
    OneMoreRead(trace, i - 1, k);
    if trace[i - 1].CallObserved? && trace[i - 1].call == k && trace[i - 1].callStep.AfterHookAnswered? {
      h := i - 1;
    } else {
      h := AfterRemembered(trace, d, i - 1, k);
    }
  }

  lemma {:induction false} NoneRejected(trace: seq<Obs>, d: nat, i: nat, k: nat)
    requires SameBatch(trace, d, i) && forall x | d < x < i :: !Rejects(trace[x], k)
    ensures LogOf(trace[..i], k).rejected.None?
    decreases i
  {
    OneMoreRead(trace, i - 1, k);
    if d < i - 1 {
      NoneRejected(trace, d, i - 1, k);
    }
  }

  lemma {:induction false} BatchStays(s: Setup, trace: seq<Obs>, d: nat, i: nat)
    requires Legal(s, trace) && SameBatch(trace, d, i)
    ensures Run(s, trace[..i]).batch.Some? && Log(Run(s, trace[..d + 1]), 0) == NO_LOG
    decreases i
  {
    hide Run, Legal, Accept, Next, Inv;
    StepAt(s, trace, i - 1);
    BatchStayStep(s, Run(s, trace[..i - 1]), trace[i - 1]);
    if d < i - 1 {
      BatchStays(s, trace, d, i - 1);
    }
  }

  lemma BatchStayStep(s: Setup, p: Protocol, o: Obs)
    requires Accept(s, p, o) && !(o.Emitted? && o.event.TurnEnd?) && Inv(p)
    ensures o.BatchDispatched? || p.batch.Some? ==> Next(p, o).batch.Some?
    ensures o.BatchDispatched? ==> Log(Next(p, o), 0) == NO_LOG
  {
    hide AcceptEvent, AcceptTool, AcceptPoll, AcceptStep, NextLog, Spoken, HistoryConsistent;
  }

  lemma {:induction false} SettledStays(s: Setup, trace: seq<Obs>, d: nat, j: nat, i: nat, k: nat)
    requires Legal(s, trace) && SameBatch(trace, d, i) && d < j <= i && LogOf(trace[..j], k).settled.Some?
    ensures LogOf(trace[..i], k).settled == LogOf(trace[..j], k).settled
    decreases i
  {
    hide Run, Legal, Accept, Next, Inv;
    if j < i {
      SettledStays(s, trace, d, j, i - 1, k);
      OneMoreRead(trace, i - 1, k);
      StepAt(s, trace, i - 1);
      BatchStays(s, trace, d, i - 1);
      LogsAreRead(s, trace[..i - 1], k);
      SettledOnce(s, Run(s, trace[..i - 1]), trace[i - 1], k);
    }
  }

  lemma SettledOnce(s: Setup, p: Protocol, o: Obs, k: nat)
    requires Accept(s, p, o) && Log(p, k).settled.Some?
    ensures o.CallObserved? && o.call == k ==> !o.callStep.ToolSettled? && !o.callStep.UpdateRejected?
  {
    hide FindTool;
  }

  /**
   * How every call ends: whatever was learnt of it since its batch was dispatched decides its output and
   * whether it is an error.
   */
  lemma CallEndsAsObserved(s: Setup, trace: seq<Obs>, i: nat)
    requires Legal(s, trace) && i < |trace| && trace[i].ToolEmitted? && trace[i].event.ToolExecutionEnd?
    ensures var e := trace[i].event;
            EndOf(s, LogOf(trace[..i], trace[i].call), e.toolName) == Some(Executed(e.result, e.isError))
  {
    hide Run, Legal, Next, Inv, EndOf, LogOf;
    StepAt(s, trace, i);
    LogsAreRead(s, trace[..i], trace[i].call);
  }

  /** The call ended as it came out, but for what the hook behind it put in its place. */
  predicate EndsAs(e: AgentEvent, output: ToolOutput, isError: bool, override: Awaited<Option<AfterToolCallResult>>) {
    && e.ToolExecutionEnd?
    && match override
       case Threw(error) => e.result.text == error.message && !e.result.terminate && e.isError
       case Done(None) => e.result == output && e.isError == isError
       case Done(Some(answer)) =>
         && e.result.text == (if answer.text.Some? then answer.text.value else output.text)
         && e.result.terminate == (if answer.terminate.Some? then answer.terminate.value else output.terminate)
         && e.isError == (if answer.isError.Some? then answer.isError.value else isError)
  }

  /** With no hook behind it a call ends as it came out; with one, as that hook answered. */
  predicate ReportedAs(s: Setup, trace: seq<Obs>, d: nat, i: nat, output: ToolOutput, isError: bool)
    requires d < i < |trace| && trace[i].ToolEmitted?
  {
    if !s.hooks.afterToolCall then EndsAs(trace[i].event, output, isError, Done(None))
    else exists h | d < h < i ::
           trace[h].CallObserved? && trace[h].call == trace[i].call && trace[h].callStep.AfterHookAnswered?
           && EndsAs(trace[i].event, output, isError, trace[h].callStep.override)
  }

  lemma ReportedFromLog(s: Setup, trace: seq<Obs>, d: nat, i: nat)
    requires Legal(s, trace) && SameBatch(trace, d, i) && i < |trace|
    requires trace[i].ToolEmitted? && trace[i].event.ToolExecutionEnd? && AbortSignalled !in trace[..i]
    requires LogOf(trace[..i], trace[i].call).settled.Some?
    ensures var log := LogOf(trace[..i], trace[i].call);
            && log.executed.Some? && Execution(log, false) == log.executed
            && (log.drained.Some? ==> log.drained.value == log.rejected)
            && ReportedAs(s, trace, d, i, log.executed.value.output, log.executed.value.isError)
  {
    hide Run, Legal, Inv, Next, Accept, LogOf;
    var k := trace[i].call;
    var log := LogOf(trace[..i], k);
    StepAt(s, trace, i);
    BatchStays(s, trace, d, i);
    LogsAreRead(s, trace[..i], k);
    LogsAreSound(s, trace[..i]);
    AbortRemembered(s, trace[..i]);
    CallEndsAsObserved(s, trace, i);
    EndHasTool(s, Run(s, trace[..i]), trace[i]);
    if s.hooks.afterToolCall {
      var h := AfterRemembered(trace, d, i, k);
    }
  }

  lemma EndHasTool(s: Setup, p: Protocol, o: Obs)
    requires Accept(s, p, o) && o.ToolEmitted? && o.event.ToolExecutionEnd? && LogsSound(s, p)
    ensures Log(p, o.call) != NO_LOG ==> FindTool(s.tools, o.event.toolName).Some?
    ensures LogSound(s, Log(p, o.call), p.aborted)
  {
    hide FindTool, EndOf, LogSound;
  }

  /**
   * In a run not aborted, a call whose tool resolved, and none of whose updates was rejected, ends with that
   * output and no error; one whose tool threw ends with that message as an error; each but for the hook
   * behind the call.
   */
  lemma ToolOutcomeIsReported(s: Setup, trace: seq<Obs>, d: nat, j: nat, i: nat, outcome: Awaited<ToolOutput>)
    requires Legal(s, trace) && SameBatch(trace, d, i) && d < j < i < |trace| && AbortSignalled !in trace[..i]
    requires trace[i].ToolEmitted? && trace[i].event.ToolExecutionEnd?
    requires trace[j] == CallObserved(trace[i].call, ToolSettled(outcome))
    requires outcome.Threw? || forall x | d < x < i :: !Rejects(trace[x], trace[i].call)
    ensures if outcome.Done? then ReportedAs(s, trace, d, i, outcome.value, false)
            else ReportedAs(s, trace, d, i, ToolOutput(outcome.error.message, false), true)
  {
    hide Run, Legal, Inv, Next, Accept, ReportedAs, LogOf;
    var k := trace[i].call;
    OneMoreRead(trace, j, k);
    SettledStays(s, trace, d, j + 1, i, k);
    ReportedFromLog(s, trace, d, i);
    if outcome.Done? {
      NoneRejected(trace, d, i, k);
    }
  }

  /** In a run not aborted, the first rejected update makes a failure of a call whose tool resolved. */
  lemma RejectedUpdateIsReported(s: Setup, trace: seq<Obs>, d: nat, r: nat, j: nat, i: nat, error: Failure)
    requires Legal(s, trace) && SameBatch(trace, d, i) && d < r < j < i < |trace| && AbortSignalled !in trace[..i]
    requires trace[i].ToolEmitted? && trace[i].event.ToolExecutionEnd?
    requires trace[r] == CallObserved(trace[i].call, UpdateRejected(error))
    requires forall x | d < x < r :: !Rejects(trace[x], trace[i].call)
    requires trace[j].CallObserved? && trace[j].call == trace[i].call
    requires trace[j].callStep.ToolSettled? && trace[j].callStep.outcome.Done?
    ensures ReportedAs(s, trace, d, i, ToolOutput(error.message, false), true)
  {
    hide Run, Legal, Inv, Next, Accept, ReportedAs, LogOf;
    var k := trace[i].call;
    OneMoreRead(trace, j, k);
    SettledStays(s, trace, d, j + 1, i, k);
    ReportedFromLog(s, trace, d, i);
    assert SameBatch(trace, d, r);
    NoneRejected(trace, d, r, k);
    OneMoreRead(trace, r, k);
    RejectionStays(trace, d, r + 1, i, k);
  }

  lemma {:induction false} RejectionStays(trace: seq<Obs>, d: nat, j: nat, i: nat, k: nat)
    requires SameBatch(trace, d, i) && d < j <= i && LogOf(trace[..j], k).rejected.Some?
    ensures LogOf(trace[..i], k).rejected == LogOf(trace[..j], k).rejected
    decreases i
  {
    if j < i {
      RejectionStays(trace, d, j, i - 1, k);
      OneMoreRead(trace, i - 1, k);
    }
  }

  /** How often the tool of the k-th call was invoked since its batch was dispatched. */
  function Invocations(trace: seq<Obs>, k: nat): nat {
    if trace == [] then 0
    else
      var before := Invocations(trace[..|trace| - 1], k);
      match trace[|trace| - 1]
      case BatchDispatched(_) => 0
      case CallObserved(call, ToolInvoked) => if call == k then before + 1 else before
      case _ => before
  }

  lemma InvokedOnceStep(s: Setup, p: Protocol, o: Obs, k: nat)
    requires Accept(s, p, o)
    ensures o == CallObserved(k, ToolInvoked) ==> !Log(p, k).invoked
    ensures o.CallObserved? && o.call == k ==>
              (NextLog(Log(p, k), o.callStep).invoked <==> Log(p, k).invoked || o.callStep.ToolInvoked?)
  {
    hide FindTool;
  }

  /** No tool is invoked twice for one call. */
  lemma {:induction false} InvokedAtMostOnce(s: Setup, trace: seq<Obs>, k: nat)
    requires Legal(s, trace) && Run(s, trace).batch.Some?
    ensures Invocations(trace, k) == if LogOf(trace, k).invoked then 1 else 0
  {
    hide Legal, Accept, Next, Inv, NextLog;
    var before, o := LastStep(s, trace);
    LogStep(s, Run(s, before), o, k);
    if o.BatchDispatched? {
      return;
    }
    InvokedAtMostOnce(s, before, k);
    LogsAreRead(s, before, k);
    InvokedOnceStep(s, Run(s, before), o, k);
  }

  /** The call was ruled out: its arguments are bad, or the hook before it blocked it or threw. */
  predicate RulesOut(o: Obs, k: nat) {
    o.CallObserved? && o.call == k
    && match o.callStep
       case ArgumentsChecked(failure) => failure.Some?
       case BeforeHookAnswered(blocked) => blocked != Done(None)
       case _ => false
  }

  lemma {:induction false} RefusalRemembered(trace: seq<Obs>, k: nat) returns (r: nat)
    requires RefusalOf(LogOf(trace, k)).Some?
    ensures r < |trace| && RulesOut(trace[r], k) && forall x | r < x < |trace| :: !trace[x].BatchDispatched?
  {
    hide RefusalOf;
    NothingRefused();
    var last := |trace| - 1;
    RefusalStep(LogOf(trace[..last], k), trace[last], k);
    if RulesOut(trace[last], k) {
      r := last;
    } else {
      r := RefusalRemembered(trace[..last], k);
      assert forall x | 0 <= x < last :: trace[..last][x] == trace[x];
    }
  }

  lemma NothingRefused()
    ensures RefusalOf(NO_LOG).None?
  {}

  lemma RefusalStep(log: CallLog, o: Obs, k: nat)
    requires o.CallObserved? && o.call == k ==> RefusalOf(NextLog(log, o.callStep)).Some?
    requires !(o.CallObserved? && o.call == k) ==> RefusalOf(log).Some?
    ensures RulesOut(o, k) || RefusalOf(log).Some?
  {}

  /**
   * A call ends for a reason: its tool was invoked, exactly once; it was ruled out by its arguments or the
   * hook before it; there is no such tool; or the run was aborted.
   */
  lemma ToolEndsForAReason(s: Setup, trace: seq<Obs>, i: nat)
    requires Legal(s, trace) && i < |trace| && trace[i].ToolEmitted? && trace[i].event.ToolExecutionEnd?
    ensures || Invocations(trace[..i], trace[i].call) == 1
            || (exists r | 0 <= r < i ::
                  RulesOut(trace[r], trace[i].call) && forall x | r < x < i :: !trace[x].BatchDispatched?)
            || FindTool(s.tools, trace[i].event.toolName).None?
            || AbortSignalled in trace[..i]
  {
    hide Run, Legal, Next, Inv, Accept, LogOf, RefusalOf, Execution, Invocations;
    var k := trace[i].call;
    var log := LogOf(trace[..i], k);
    StepAt(s, trace, i);
    ToolNeedsBatch(s, Run(s, trace[..i]), trace[i]);
    CallEndsAsObserved(s, trace, i);
    InvokedAtMostOnce(s, trace[..i], k);
    LogsAreRead(s, trace[..i], k);
    LogsAreSound(s, trace[..i]);
    AbortRemembered(s, trace[..i]);
    EndHasTool(s, Run(s, trace[..i]), trace[i]);
    if RefusalOf(log).Some? {
      var r := RefusalRemembered(trace[..i], k);
      assert trace[..i][r] == trace[r];
    } else if !log.invoked {
      NeverInvoked(log);
    }
  }

  lemma NeverInvoked(log: CallLog)
    ensures !log.invoked ==> Execution(log, false).None?
  {}

  lemma {:induction false} EventRemembered(trace: seq<Obs>, k: nat, e: AgentEvent) returns (x: nat)
    requires e in CallEvents(trace, k)
    ensures x < |trace| && trace[x] == ToolEmitted(k, e) && forall y | x < y < |trace| :: !trace[y].BatchDispatched?
  {
    var last := |trace| - 1;
    if trace[last] == ToolEmitted(k, e) {
      x := last;
    } else {
      x := EventRemembered(trace[..last], k, e);
      assert forall y | 0 <= y < last :: trace[..last][y] == trace[y];
    }
  }

  /** A tool result message carries the text and the error mark that the end of its call reported before. */
  lemma ResultCarriesTheEnd(s: Setup, trace: seq<Obs>, i: nat) returns (k: nat, x: nat)
    requires Legal(s, trace) && i < |trace| && trace[i].Emitted? && trace[i].event.MessageEnd?
    requires Run(s, trace[..i]).batch.Some?
    ensures x < i && trace[x].ToolEmitted? && trace[x].call == k && trace[x].event.ToolExecutionEnd?
    ensures forall y | x < y < i :: !trace[y].BatchDispatched?
    ensures var e := trace[x].event;
            trace[i].event.message == ToolResultMessage(e.toolCallId, e.toolName, e.result.text, e.isError)
  {
    hide Run, Legal, Next, CallEvents, HistoryConsistent, Transcript;
    StepAt(s, trace, i);
    var p := Run(s, trace[..i]);
    k := |p.results|;
    CallEventsAreBracketed(s, trace[..i], k);
    var events := CallEvents(trace[..i], k);
    x := EventRemembered(trace[..i], k, events[|events| - 1]);
    assert trace[..i][x] == trace[x];
    assert forall y | 0 <= y < i :: trace[..i][y] == trace[y];
  }

  predicate Asks(o: Obs, k: nat) {
    o.CallObserved? && o.call == k
  }

  /** A call of no known tool says so, and nothing is learnt of it. */
  lemma UnknownToolIsReported(s: Setup, trace: seq<Obs>, i: nat)
    requires Legal(s, trace) && i < |trace| && trace[i].ToolEmitted? && trace[i].event.ToolExecutionEnd?
    requires forall t <- s.tools :: t.name != trace[i].event.toolName
    ensures trace[i].event.isError && trace[i].event.result.text == "Tool " + trace[i].event.toolName + " not found"
  {
    hide Run, Legal, Next, Inv, LogOf;
    CallEndsAsObserved(s, trace, i);
  }

  /** A call that is ruled out ends as an error with the reason given: its arguments', or that of the hook before it. */
  lemma RefusalIsReported(s: Setup, trace: seq<Obs>, d: nat, j: nat, i: nat)
    requires Legal(s, trace) && SameBatch(trace, d, i) && d < j < i < |trace|
    requires trace[i].ToolEmitted? && trace[i].event.ToolExecutionEnd? && RulesOut(trace[j], trace[i].call)
    ensures trace[i].event.isError && !trace[i].event.result.terminate
    ensures trace[i].event.result.text ==
            match trace[j].callStep {
              case ArgumentsChecked(failure) => failure.value
              case BeforeHookAnswered(blocked) =>
                if blocked.Threw? then blocked.error.message
                else if blocked.value.value == "" then "Tool execution was blocked" else blocked.value.value
              case _ => ""
            }
  {
    hide Run, Legal, Next, Inv, Accept, LogOf, SameBatch, RuledOutLog, RefusalOf, EndOf;
    var k := trace[i].call;
    RulesOutAsks(trace[j], k);
    RuledOutStays(s, trace, d, j, i, k);
    RefusalOfRuledOut(trace[j], k);
    CallEndsAsObserved(s, trace, i);
    StepAt(s, trace, i);
    LogsAreSound(s, trace[..i]);
    BatchStays(s, trace, d, i);
    LogsAreRead(s, trace[..i], k);
    EndHasTool(s, Run(s, trace[..i]), trace[i]);
    EndOfRefused(s, RuledOutLog(trace[j]), trace[i].event.toolName);
  }

  lemma EndOfRefused(s: Setup, log: CallLog, name: string)
    requires FindTool(s.tools, name).Some? && RefusalOf(log).Some?
    ensures EndOf(s, log, name) == Some(Executed(ToolOutput(RefusalOf(log).value, false), true))
  {}

  /** All that is known of a call once it has been ruled out. */
  function RuledOutLog(o: Obs): CallLog
    requires o.CallObserved?
  {
    match o.callStep
    case ArgumentsChecked(failure) => NO_LOG.(checked := Some(failure))
    case BeforeHookAnswered(blocked) => NO_LOG.(checked := Some(None), before := Some(blocked))
    case _ => NO_LOG
  }

  lemma RuledOutStep(s: Setup, p: Protocol, o: Obs, k: nat)
    requires Accept(s, p, o) && RulesOut(o, k)
    ensures NextLog(Log(p, k), o.callStep) == RuledOutLog(o)
  {
    hide FindTool;
  }

  lemma NothingAfterRefusal(s: Setup, p: Protocol, o: Obs, k: nat, refusal: Obs)
    requires Accept(s, p, o) && RulesOut(refusal, k) && Log(p, k) == RuledOutLog(refusal)
    ensures !Asks(o, k)
  {
    hide FindTool;
  }

  /** What ruled the call out is remembered, and nothing is learnt of the call after it. */
  lemma {:induction false} RuledOutStays(s: Setup, trace: seq<Obs>, d: nat, j: nat, i: nat, k: nat)
    requires Legal(s, trace) && SameBatch(trace, d, i) && d < j < i <= |trace| && RulesOut(trace[j], k)
    ensures LogOf(trace[..i], k) == RuledOutLog(trace[j])
    decreases i
  {
    hide Run, Legal, Accept, Next, Inv, NextLog, RuledOutLog, RulesOut;
    StepAt(s, trace, i - 1);
    OneMoreRead(trace, i - 1, k);
    assert SameBatch(trace, d, i - 1);
    BatchStays(s, trace, d, i - 1);
    LogsAreRead(s, trace[..i - 1], k);
    if j < i - 1 {
      RuledOutStays(s, trace, d, j, i - 1, k);
      NothingAfterRefusal(s, Run(s, trace[..i - 1]), trace[i - 1], k, trace[j]);
    } else {
      RulesOutAsks(trace[j], k);
      RuledOutStep(s, Run(s, trace[..i - 1]), trace[i - 1], k);
    }
  }

  lemma RulesOutAsks(o: Obs, k: nat)
    requires RulesOut(o, k)
    ensures Asks(o, k)
  {}

  lemma RefusalOfRuledOut(o: Obs, k: nat)
    requires RulesOut(o, k)
    ensures RuledOutLog(o) != NO_LOG
    ensures RefusalOf(RuledOutLog(o)) ==
            match o.callStep {
              case ArgumentsChecked(failure) => failure
              case BeforeHookAnswered(blocked) =>
                if blocked.Threw? then Some(blocked.error.message)
                else if blocked.value.value == "" then Some("Tool execution was blocked") else Some(blocked.value.value)
              case _ => None
            }
  {}

  /**
   * A call on which the loop gave up because of an abort, or whose tool lost against it, ends as an aborted
   * tool, but for the hook behind it.
   */
  lemma AbortedCallSaysSo(s: Setup, trace: seq<Obs>, d: nat, j: nat)
    requires Legal(s, trace) && SameBatch(trace, d, j) && d < j < |trace| && AbortSignalled in trace[..j]
    requires trace[j].CallObserved? && trace[j].callStep.CallExecuted?
    requires forall x | d < x < j :: !Resolves(trace[x], trace[j].call)
    ensures trace[j].callStep.executed == Executed(ToolOutput("Tool execution aborted", false), true)
  {
    hide Run, Legal, Next, Inv, LogOf, NextLog, FindTool;
    var k := trace[j].call;
    StepAt(s, trace, j);
    AbortRemembered(s, trace[..j]);
    BatchStays(s, trace, d, j);
    LogsAreRead(s, trace[..j], k);
    NeverResolved(trace, d, j, k);
  }

  predicate Resolves(o: Obs, k: nat) {
    Asks(o, k) && o.callStep.ToolSettled? && o.callStep.outcome.Done?
  }

  lemma {:induction false} NeverResolved(trace: seq<Obs>, d: nat, i: nat, k: nat)
    requires SameBatch(trace, d, i) && forall x | d < x < i :: !Resolves(trace[x], k)
    ensures var settled := LogOf(trace[..i], k).settled; settled.Some? ==> settled.value.Threw?
    decreases i
  {
    OneMoreRead(trace, i - 1, k);
    if d < i - 1 {
      NeverResolved(trace, d, i - 1, k);
    }
  }

  /**
   * A batch is worked off one call after the other exactly if the run is configured so, or some call's tool,
   * the first of its name, is.
   */
  lemma SequentialExactly(s: Setup, trace: seq<Obs>, d: nat)
    requires Legal(s, trace) && d < |trace| && trace[d].BatchDispatched?
    ensures var response := Run(s, trace[..d]).response;
            response.Some? && response.value.AssistantMessage?
            && (trace[d].mode == Sequential <==>
                  || s.mode == Sequential
                  || exists k, t | 0 <= k < |response.value.toolCalls| && 0 <= t < |s.tools| ::
                       FirstNamed(s.tools, t, response.value.toolCalls[k].name)
                       && s.tools[t].executionMode == Some(Sequential))
  {
    hide Run, Legal, Next, Inv;
    StepAt(s, trace, d);
    var calls := CallsOf(Run(s, trace[..d]).response.value);
    forall k | 0 <= k < |calls|
      ensures (exists t | 0 <= t < |s.tools| ::
                 FirstNamed(s.tools, t, calls[k].name) && s.tools[t].executionMode == Some(Sequential)) <==>
              FindTool(s.tools, calls[k].name).Some?
              && FindTool(s.tools, calls[k].name).value.executionMode == Some(Sequential)
    {
      FoundIsFirst(s.tools, calls[k].name);
    }
  }

  predicate FirstNamed(tools: seq<Tool>, t: nat, name: string) {
    t < |tools| && tools[t].name == name && forall u | 0 <= u < t :: tools[u].name != name
  }

  lemma {:induction false} FoundIsFirst(tools: seq<Tool>, name: string)
    ensures forall t: nat | FirstNamed(tools, t, name) :: FindTool(tools, name) == Some(tools[t])
    ensures FindTool(tools, name).Some? ==> exists t: nat :: FirstNamed(tools, t, name)
  {
    if tools != [] {
      FoundIsFirst(tools[1..], name);
      forall t: nat | FirstNamed(tools, t, name) ensures FindTool(tools, name) == Some(tools[t]) {
        if t > 0 {
          assert FirstNamed(tools[1..], t - 1, name);
        }
      }
      if tools[0].name == name {
        assert FirstNamed(tools, 0, name);
      } else if FindTool(tools, name).Some? {
        var t: nat :| FirstNamed(tools[1..], t, name);
        assert FirstNamed(tools, t + 1, name);
      }
    }
  }

  /**
   * A turn with a batch asks for another turn exactly if not every call that was made ended with the hint to
   * terminate, or none was made.
   */
  lemma AsksForAnother(s: Setup, trace: seq<Obs>, i: nat)
    requires Legal(s, trace) && i < |trace| && trace[i].Emitted? && trace[i].event.TurnEnd?
    ensures var p, turns := Run(s, trace[..i]), Run(s, trace[..i + 1]).turns;
            && turns != []
            && (turns[|turns| - 1].wantsMore <==>
                  p.batch.Some? && CallsOf(trace[i].event.message) != []
                  && (p.calls == []
                      || exists k | 0 <= k < |p.calls| :: LeftUnfinished(trace[..i], k)))
  {
    hide Run, Legal, Accept, Next, Inv;
    StepAt(s, trace, i);
    var p := Run(s, trace[..i]);
    TurnEndCloses(s, p, trace[i]);
    if p.batch.Some? {
      forall k | 0 <= k < |p.calls|
        ensures !p.calls[k].output.terminate <==> LeftUnfinished(trace[..i], k)
      {
        EndsInTrace(s, trace, i, k);
      }
    }
  }

  lemma TurnEndCloses(s: Setup, p: Protocol, o: Obs)
    requires Inv(p) && Accept(s, p, o) && o.Emitted? && o.event.TurnEnd?
    ensures var turns := Next(p, o).turns;
            turns != []
            && (turns[|turns| - 1].wantsMore <==>
                  p.batch.Some? && CallsOf(o.event.message) != []
                  && (p.calls == [] || exists k | 0 <= k < |p.calls| :: !p.calls[k].output.terminate))
    ensures forall k | 0 <= k < |p.calls| :: p.calls[k].Ended?
  {
    hide Transcript, HistoryConsistent, TurnConsistent;
    assert Next(p, o).turns == p.turns + [ClosedTurn(p, o.event.message)];
  }

  /** The k-th call of the last batch ended without the hint to terminate. */
  predicate LeftUnfinished(trace: seq<Obs>, k: nat) {
    exists x | 0 <= x < |trace| ::
      EndsUnfinished(trace[x], k) && forall y | x < y < |trace| :: !trace[y].BatchDispatched?
  }

  predicate EndsUnfinished(o: Obs, k: nat) {
    o.ToolEmitted? && o.call == k && o.event.ToolExecutionEnd? && !o.event.result.terminate
  }

  lemma EndsInTrace(s: Setup, trace: seq<Obs>, i: nat, k: nat)
    requires Legal(s, trace) && i <= |trace| && Run(s, trace[..i]).batch.Some? && k < |Run(s, trace[..i]).calls|
    requires Run(s, trace[..i]).calls[k].Ended?
    ensures !Run(s, trace[..i]).calls[k].output.terminate <==> LeftUnfinished(trace[..i], k)
  {
    hide Run, Legal, Transcript, CallEvents;
    var past, events := trace[..i], CallEvents(trace[..i], k);
    LegalPrefix(s, trace, i);
    CallEventsAreBracketed(s, past, k);
    var x := EventRemembered(past, k, events[|events| - 1]);
    forall z | 0 <= z < i && EndsUnfinished(past[z], k) && forall y | z < y < i :: !past[y].BatchDispatched?
      ensures past[z].event in events
    {
      assert past[..i] == past;
      EventIsRead(past, z, i, k);
    }
  }

  lemma {:induction false} EventIsRead(trace: seq<Obs>, z: nat, i: nat, k: nat)
    requires z < i <= |trace| && trace[z].ToolEmitted? && trace[z].call == k
    requires forall y | z < y < i :: !trace[y].BatchDispatched?
    ensures trace[z].event in CallEvents(trace[..i], k)
    decreases i
  {
    assert trace[..i][..i - 1] == trace[..i - 1];
    if z < i - 1 {
      EventIsRead(trace, z, i - 1, k);
    }
  }

  /** The first turn's provider call follows a steering poll, unless the run was aborted before it. */
  lemma SteeringBeforeTheFirstCall(s: Setup, trace: seq<Obs>, i: nat)
    requires Legal(s, trace) && i < |trace| && trace[i].ProviderCalled? && AbortSignalled !in trace[..i]
    requires forall x | 0 <= x < i :: !ClosesTurn(trace[x])
    ensures exists x | 0 <= x < i :: trace[x].Polled? && trace[x].source == Steering
  {
    hide Run, Legal, Next, Inv;
    StepAt(s, trace, i);
    AbortRemembered(s, trace[..i]);
    TurnsAndPolls(s, trace[..i]);
  }

  predicate ClosesTurn(o: Obs) {
    o.Emitted? && o.event.TurnEnd?
  }

  /** Without the end of a turn there is no closed turn, and the last poll was one. */
  lemma {:induction false} TurnsAndPolls(s: Setup, trace: seq<Obs>)
    ensures (forall x | 0 <= x < |trace| :: !ClosesTurn(trace[x])) ==> Run(s, trace).turns == []
    ensures var last := Run(s, trace).lastPoll;
            last.Some? ==> exists x | 0 <= x < |trace| :: trace[x].Polled? && trace[x].source == last.value
  {
    hide Next;
    if trace != [] {
      var before, o := trace[..|trace| - 1], trace[|trace| - 1];
      TurnsAndPolls(s, before);
      TurnOrPollStep(Run(s, before), o);
      assert forall x | 0 <= x < |before| :: before[x] == trace[x];
    }
  }

  lemma TurnOrPollStep(p: Protocol, o: Obs)
    ensures !ClosesTurn(o) ==> Next(p, o).turns == p.turns
    ensures Next(p, o).lastPoll == p.lastPoll || Next(p, o).lastPoll.None?
            || (o.Polled? && Next(p, o).lastPoll == Some(o.source))
  {}

  // ---------------------------------------------------------------- updates of tools

  predicate Gives(o: Obs) {
    o.CallObserved? && o.callStep.UpdateGiven?
  }

  predicate Tells(o: Obs) {
    o.ToolEmitted? && o.event.ToolExecutionUpdate?
  }

  lemma UntoldStep(s: Setup, p: Protocol, o: Obs)
    requires Accept(s, p, o)
    ensures !Gives(o) && !Tells(o) ==> Next(p, o).untold == p.untold
    ensures Tells(o) ==> p.untold == Some(Untold(o.call, o.event.partial)) && Next(p, o).untold.None?
    ensures Gives(o) ==> p.untold.None?
    ensures Gives(o) ==>
              Next(p, o).untold == if p.aborted then None else Some(Untold(o.call, o.callStep.update))
    ensures o.CallObserved? && o.callStep.ToolSettled? ==> p.untold.None?
  {
    hide AcceptEvent, AcceptPoll, Spoken;
  }

  /**
   * An update that a tool gave to a run not aborted then is told to listeners, before any tool settles or gives
   * another.
   */
  lemma UpdateIsTold(s: Setup, trace: seq<Obs>, j: nat, i: nat) returns (x: nat)
    requires Legal(s, trace) && j < i < |trace| && Gives(trace[j]) && AbortSignalled !in trace[..j]
    requires Gives(trace[i]) || (trace[i].CallObserved? && trace[i].callStep.ToolSettled?)
    ensures j < x < i && Tells(trace[x]) && trace[x].call == trace[j].call
    ensures trace[x].event.partial == trace[j].callStep.update
  {
    hide Run, Legal, Accept, Next, Inv;
    StepAt(s, trace, i);
    UntoldStep(s, Run(s, trace[..i]), trace[i]);
    x := ToldUnlessUntold(s, trace, j, i);
  }

  lemma {:induction false} ToldUnlessUntold(s: Setup, trace: seq<Obs>, j: nat, i: nat) returns (x: nat)
    requires Legal(s, trace) && j < i <= |trace| && Gives(trace[j]) && AbortSignalled !in trace[..j]
    ensures var untold := Untold(trace[j].call, trace[j].callStep.update);
            || Run(s, trace[..i]).untold == Some(untold)
            || (j < x < i && Tells(trace[x]) && Untold(trace[x].call, trace[x].event.partial) == untold)
    decreases i
  {
    hide Run, Legal, Accept, Next, Inv;
    StepAt(s, trace, i - 1);
    UntoldStep(s, Run(s, trace[..i - 1]), trace[i - 1]);
    if j == i - 1 {
      AbortRemembered(s, trace[..j]);
      return i - 1;
    }
    x := ToldUnlessUntold(s, trace, j, i - 1);
    if Tells(trace[i - 1]) && Run(s, trace[..i - 1]).untold == Some(Untold(trace[j].call, trace[j].callStep.update)) {
      x := i - 1;
    }
  }

  lemma NothingUntold(s: Setup)
    ensures Run(s, []).untold.None?
  {}

  /** Listeners are told of no update but the last one a tool gave, with the run not aborted then, and only once. */
  lemma ToldWasGiven(s: Setup, trace: seq<Obs>, i: nat) returns (j: nat)
    requires Legal(s, trace) && i < |trace| && Tells(trace[i])
    ensures j < i && Gives(trace[j]) && AbortSignalled !in trace[..j]
    ensures trace[j].call == trace[i].call && trace[j].callStep.update == trace[i].event.partial
    ensures forall x | j < x < i :: !Gives(trace[x]) && !Tells(trace[x])
  {
    hide Run, Legal, Accept, Next, Inv;
    StepAt(s, trace, i);
    UntoldStep(s, Run(s, trace[..i]), trace[i]);
    j := UntoldWasGiven(s, trace, i);
  }

  lemma {:induction false} UntoldWasGiven(s: Setup, trace: seq<Obs>, i: nat) returns (j: nat)
    requires Legal(s, trace) && i <= |trace| && Run(s, trace[..i]).untold.Some?
    ensures j < i && Gives(trace[j]) && AbortSignalled !in trace[..j]
    ensures Run(s, trace[..i]).untold == Some(Untold(trace[j].call, trace[j].callStep.update))
    ensures forall x | j < x < i :: !Gives(trace[x]) && !Tells(trace[x])
    decreases i
  {
    NothingUntold(s);
    hide Run, Legal, Accept, Next, Inv;
    StepAt(s, trace, i - 1);
    UntoldStep(s, Run(s, trace[..i - 1]), trace[i - 1]);
    j := i - 1;
    if Gives(trace[j]) {
      AbortRemembered(s, trace[..j]);
    } else {
      j := UntoldWasGiven(s, trace, i - 1);
    }
  }

  // ---------------------------------------------------------------- stop hooks, and what throws

  /** The stop hooks that answered since the last poll or the end of the last turn. */
  function AskedSince(trace: seq<Obs>): seq<StopHook> {
    if trace == [] then []
    else
      match trace[|trace| - 1]
      case Emitted(TurnEnd(_, _)) => []
      case Polled(_, _, _, _) => []
      case StopAnswered(hook, _) => AskedSince(trace[..|trace| - 1]) + [hook]
      case _ => AskedSince(trace[..|trace| - 1])
  }

  lemma AskedStep(p: Protocol, o: Obs)
    ensures Next(p, o).asked ==
            if (o.Emitted? && o.event.TurnEnd?) || o.Polled? then []
            else if o.StopAnswered? then p.asked + [o.hook] else p.asked
  {
    hide ClosedTurn, ShownStream;
  }

  lemma {:induction false} AskedIsRead(s: Setup, trace: seq<Obs>)
    ensures Run(s, trace).asked == AskedSince(trace)
  {
    if trace != [] {
      hide Next;
      AskedIsRead(s, trace[..|trace| - 1]);
      AskedStep(Run(s, trace[..|trace| - 1]), trace[|trace| - 1]);
    }
  }

  /**
   * Before every poll of a run not aborted, but for the one before the first turn, the stop hooks answered:
   * the one behind the turn and the one before the next turn before steering; the latter again on either
   * side of the decision to look for follow-ups; and once more before continuations.
   */
  lemma HooksAnswerBeforePolls(s: Setup, trace: seq<Obs>, i: nat)
    requires Legal(s, trace) && i < |trace| && trace[i].Polled? && AbortSignalled !in trace[..i]
    requires Run(s, trace[..i]).turns != []
    ensures AskedSince(trace[..i]) ==
            match trace[i].source {
              case Steering => [AfterTurnHook, BeforeTurnHook]
              case FollowUp => [BeforeTurnHook, BeforeTurnHook]
              case Continuation => [BeforeTurnHook]
            }
  {
    hide Run, Legal, Next, Inv;
    StepAt(s, trace, i);
    AskedIsRead(s, trace[..i]);
    AbortRemembered(s, trace[..i]);
  }

  /** A run that may only end: a stop hook said so, or something threw that ends it. */
  predicate Ending(p: Protocol) {
    p.dead || (p.stopping && (p.status.Between? || p.status.Closed?))
  }

  lemma EndingStep(s: Setup, p: Protocol, o: Obs)
    requires Accept(s, p, o) && Ending(p)
    ensures Ending(Next(p, o)) && (p.dead ==> Next(p, o).dead && IsInput(o))
    ensures IsInput(o) || (o.Emitted? && o.event.AgentEnd?)
  {
    hide Transcript, AcceptTool, AcceptMessage, AcceptStep, Answered, Failed, NextLog, NextStream, ClosedTurn, MayEnd;
  }

  lemma {:induction false} StaysEnding(s: Setup, trace: seq<Obs>, i: nat, j: nat)
    requires Legal(s, trace) && i <= j < |trace| && Ending(Run(s, trace[..i]))
    ensures Ending(Run(s, trace[..j])) && (Run(s, trace[..i]).dead ==> Run(s, trace[..j]).dead)
    decreases j - i
  {
    hide Run, Legal, Accept, Next, Ending, Inv;
    if i < j {
      StepAt(s, trace, i);
      EndingStep(s, Run(s, trace[..i]), trace[i]);
      StaysEnding(s, trace, i + 1, j);
    }
  }

  lemma StopEnds(s: Setup, p: Protocol, o: Obs)
    requires Accept(s, p, o)
    ensures o.StopAnswered? && o.stop ==> Ending(Next(p, o))
    ensures o.ListenerRejected? || (o.HookThrew? && !(o.error.abortLike && p.aborted)) ==> Next(p, o).dead
  {
    hide Transcript;
  }

  /** Once a stop hook has said so, the loop does nothing but end the run. */
  lemma StopIsFinal(s: Setup, trace: seq<Obs>, i: nat, j: nat)
    requires Legal(s, trace) && i < j < |trace| && trace[i].StopAnswered? && trace[i].stop
    ensures IsInput(trace[j]) || (trace[j].Emitted? && trace[j].event.AgentEnd?)
  {
    hide Run, Legal, Accept, Next, Ending, Inv;
    StepAt(s, trace, i);
    StopEnds(s, Run(s, trace[..i]), trace[i]);
    StaysEnding(s, trace, i + 1, j);
    StepAt(s, trace, j);
    EndingStep(s, Run(s, trace[..j]), trace[j]);
  }

  /** A listener or another callback that throws ends the run, unless it threw an abort error in an aborted one. */
  lemma NothingAfterAThrow(s: Setup, trace: seq<Obs>, i: nat, j: nat)
    requires Legal(s, trace) && i < j < |trace|
    requires trace[i].ListenerRejected?
             || (trace[i].HookThrew? && !(trace[i].error.abortLike && AbortSignalled in trace[..i]))
    ensures IsInput(trace[j])
  {
    hide Run, Legal, Accept, Next, Ending, Inv;
    StepAt(s, trace, i);
    AbortRemembered(s, trace[..i]);
    StopEnds(s, Run(s, trace[..i]), trace[i]);
    DeadIsEnding(Run(s, trace[..i + 1]));
    StaysEnding(s, trace, i + 1, j);
    StepAt(s, trace, j);
    EndingStep(s, Run(s, trace[..j]), trace[j]);
  }

  lemma DeadIsEnding(p: Protocol)
    ensures p.dead ==> Ending(p)
  {}

  // ---------------------------------------------------------------- the agent's rebuilt state

  predicate UniqueIds(calls: seq<ToolCall>) {
    forall i, j | 0 <= i < j < |calls| :: calls[i].id != calls[j].id
  }

  /** Ids of the calls that have started and not ended. */
  function RunningIds(p: Protocol): set<string> {
    if p.response.None? || |p.calls| > |CallsOf(p.response.value)| then {}
    else set k | 0 <= k < |p.calls| && p.calls[k].Running? :: CallsOf(p.response.value)[k].id
  }

  /**
   * Refinement: after any legal trace the agent's transcript is the initial context and everything
   * said since, its streaming message is the open bracket, and its pending ids are running calls,
   * all of them when the ids of the batch are unique.
   */
  lemma {:induction false} AgentRefinesProtocol(s: Setup, view: AgentView, trace: seq<Obs>)
    requires Legal(s, trace)
    requires view.messages == s.base && view.streamingMessage.None? && view.pendingToolCalls == {}
    ensures Refines(s, Observed(view, trace), Run(s, trace))
  {
    if trace == [] {
      return;
    }
    hide Run, Legal, Accept, Next, Inv, Reduce, Refines;
    var before, o := LastStep(s, trace);
    AgentRefinesProtocol(s, view, before);
    RefinesStep(s, Run(s, before), o, Observed(view, before));
  }

  /** The agent's state as the protocol predicts it. */
  predicate Refines(s: Setup, v: AgentView, p: Protocol) {
    && v.messages == s.base + Spoken(p)
    && v.streamingMessage == p.open
    && v.pendingToolCalls <= RunningIds(p)
    && (p.response.Some? && UniqueIds(CallsOf(p.response.value)) ==> v.pendingToolCalls == RunningIds(p))
  }

  lemma RefinesStep(s: Setup, p: Protocol, o: Obs, v: AgentView)
    requires Inv(p) && Inv(Next(p, o)) && Accept(s, p, o) && Refines(s, v, p)
    ensures Refines(s, ReduceObs(v, o), Next(p, o))
  {
    hide Transcript, AcceptTool, AcceptEvent, NextEvent, AcceptPoll, Inv, Spoken, Reduce;
    SpokenStep(s, p, o);
    match o
    case Emitted(e) => RefinesEventStep(s, p, e, v);
    case ToolEmitted(k, e) => RefinesToolStep(s, p, k, e, v);
    case _ =>
  }

  lemma RefinesEventStep(s: Setup, p: Protocol, e: AgentEvent, v: AgentView)
    requires Inv(p) && AcceptEvent(p, e) && Refines(s, v, p)
    requires Spoken(NextEvent(p, e)) == Spoken(p) + (if e.MessageEnd? then [e.message] else [])
    ensures Refines(s, Reduce(v, e), NextEvent(p, e))
  {
    hide Transcript, HistoryConsistent, Answered, MayEnd, AcceptMessage, Terminates, Spoken;
  }

  lemma RefinesToolStep(s: Setup, p: Protocol, k: nat, e: AgentEvent, v: AgentView)
    requires Inv(p) && InBatch(p) && AcceptTool(s, p, k, e) && Refines(s, v, p)
    requires Spoken(Next(p, ToolEmitted(k, e))) == Spoken(p)
    ensures Refines(s, Reduce(v, e), Next(p, ToolEmitted(k, e)))
  {
    hide Transcript, HistoryConsistent, TurnConsistent, Answered, Spoken, NextEvent, RunningIds, UniqueIds;
    var requested := CallsOf(p.response.value);
    if e.ToolExecutionStart? {
      StartedIds(s, p, k, e);
    } else if e.ToolExecutionEnd? {
      EndedIds(s, p, k, e);
    } else {
      ToldIds(p);
      assert Next(p, ToolEmitted(k, e)) == p.(untold := None);
    }
  }

  lemma ToldIds(p: Protocol)
    ensures RunningIds(p.(untold := None)) == RunningIds(p)
  {}

  lemma StartedIds(s: Setup, p: Protocol, k: nat, e: AgentEvent)
    requires Inv(p) && InBatch(p) && AcceptTool(s, p, k, e) && e.ToolExecutionStart?
    ensures RunningIds(Next(p, ToolEmitted(k, e))) == RunningIds(p) + {e.toolCallId}
  {
    hide Transcript, HistoryConsistent, TurnConsistent, Answered;
    var q := Next(p, ToolEmitted(k, e));
    assert q.calls[k] == Running;
    forall i | 0 <= i < |p.calls| ensures q.calls[i] == p.calls[i] {}
  }

  lemma EndedIds(s: Setup, p: Protocol, k: nat, e: AgentEvent)
    requires Inv(p) && InBatch(p) && AcceptTool(s, p, k, e) && e.ToolExecutionEnd?
    ensures var q := Next(p, ToolEmitted(k, e));
            && RunningIds(p) - {e.toolCallId} <= RunningIds(q) <= RunningIds(p)
            && (UniqueIds(CallsOf(p.response.value)) ==> e.toolCallId !in RunningIds(q))
  {
    hide Transcript, HistoryConsistent, TurnConsistent, Answered;
    var q := Next(p, ToolEmitted(k, e));
    forall i | 0 <= i < |p.calls| && i != k ensures q.calls[i] == p.calls[i] {}
  }

  /** No tool call is pending in the agent's state when a turn ends, whether or not ids are unique. */
  lemma NothingPendingAtTurnEnd(s: Setup, view: AgentView, trace: seq<Obs>)
    requires Legal(s, trace) && trace != []
    requires view.messages == s.base && view.streamingMessage.None? && view.pendingToolCalls == {}
    requires trace[|trace| - 1].Emitted? && trace[|trace| - 1].event.TurnEnd?
    ensures Observed(view, trace).pendingToolCalls == {} && Observed(view, trace).streamingMessage.None?
  {
    hide Run, Legal, Transcript, Spoken, Observed;
    AgentRefinesProtocol(s, view, trace);
    var before, o := LastStep(s, trace);
  }
}
