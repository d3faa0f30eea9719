/** The proxy stream: framing server lines and folding deltas back into one assistant message. */
module Proxy {
  import opened Wrappers
  import opened Framing

  /** `Json` values are opaque; `EmptyObject` is the literal `{}`. */
  datatype Json = EmptyObject | Parsed(id: int)

  datatype ProxyEvent =
    | Start
    | TextStart(i: nat)
    | TextDelta(i: nat, delta: string)
    | TextEnd(i: nat, signature: Option<string>)
    | ThinkingStart(i: nat)
    | ThinkingDelta(i: nat, delta: string)
    | ThinkingEnd(i: nat, signature: Option<string>)
    | ToolCallStart(i: nat, id: string, name: string)
    | ToolCallDelta(i: nat, delta: string)
    | ToolCallEnd(i: nat)
    | Done(reason: string)
    | Error(reason: string, message: Option<string>)
    | Unknown

  datatype Block =
    | Text(text: string, signature: Option<string>)
    | Thinking(text: string, signature: Option<string>)
    | ToolCall(id: string, name: string, arguments: Json, partialJson: Option<string>)

  /** What the consumer of the stream sees; deltas and starts are passed on as they came. */
  datatype StreamEvent =
    | Passed(event: ProxyEvent)
    | Closed(i: nat, content: string)
    | ToolClosed(i: nat, call: Block)
    | Finished(reason: string)
    | Failed(reason: string, message: Option<string>)

  predicate Terminal(e: StreamEvent) {
    e.Finished? || e.Failed?
  }

  function Index(e: ProxyEvent): Option<nat> {
    if e.Start? || e.Done? || e.Error? || e.Unknown? then None else Some(e.i)
  }

  predicate Begins(e: ProxyEvent) {
    e.TextStart? || e.ThinkingStart? || e.ToolCallStart?
  }

  predicate IsDelta(e: ProxyEvent) {
    e.TextDelta? || e.ThinkingDelta? || e.ToolCallDelta?
  }

  // ---------------------------------------------------------------- what a block should be

  function Addressed(events: seq<ProxyEvent>, i: nat): seq<ProxyEvent> {
    if events == [] then []
    else
      var last := |events| - 1;
      Addressed(events[..last], i) + (if Index(events[last]) == Some(i) then [events[last]] else [])
  }

  /** The events of one block since it was last started, its start first; empty if it never was. */
  function SinceStart(own: seq<ProxyEvent>): (run: seq<ProxyEvent>)
    ensures run != [] ==> Begins(run[0])
  {
    if own == [] then []
    else
      var last := |own| - 1;
      if Begins(own[last]) then [own[last]]
      else
        var before := SinceStart(own[..last]);
        if before == [] then [] else before + [own[last]]
  }

  lemma {:induction false} SinceStartIsTheTail(own: seq<ProxyEvent>)
    ensures var run := SinceStart(own);
            && |run| <= |own| && run == own[|own| - |run|..]
            && (forall k | 1 <= k < |run| :: !Begins(run[k]))
            && (run == [] ==> forall k | 0 <= k < |own| :: !Begins(own[k]))
  {
    if own != [] {
      SinceStartIsTheTail(own[..|own| - 1]);
    }
  }

  /** All deltas joined. */
  function Deltas(run: seq<ProxyEvent>): string {
    if run == [] then ""
    else
      var last := |run| - 1;
      Deltas(run[..last]) + (if IsDelta(run[last]) then run[last].delta else "")
  }

  /** What the last end event said. */
  function Signature(run: seq<ProxyEvent>): Option<string> {
    if run == [] then None
    else
      var last := |run| - 1;
      if run[last].TextEnd? || run[last].ThinkingEnd? then run[last].signature else Signature(run[..last])
  }

  /** The JSON text kept beside a tool call; an end deletes it, and a later delta is added to the word "undefined". */
  function PartialJson(run: seq<ProxyEvent>): Option<string> {
    if run == [] then None
    else
      var last := |run| - 1;
      var before := PartialJson(run[..last]);
      match run[last]
      case ToolCallStart(_, _, _) => Some("")
      case ToolCallDelta(_, delta) => Some((if before.Some? then before.value else "undefined") + delta)
      case ToolCallEnd(_) => None
      case _ => before
  }

  function LastDelta(run: seq<ProxyEvent>): (n: nat)
    ensures n <= |run| && (n > 0 ==> IsDelta(run[n - 1])) && forall k | n <= k < |run| :: !IsDelta(run[k])
  {
    if run == [] then 0
    else if IsDelta(run[|run| - 1]) then |run|
    else LastDelta(run[..|run| - 1])
  }

  /** `parseStreamingJson(…) || {}`. */
  function ParseOr(parse: string -> Option<Json>, s: string): Json {
    var json := parse(s);
    if json.Some? then json.value else EmptyObject
  }

  /** The text that was parsed last, when the last delta came. */
  function ParsedText(run: seq<ProxyEvent>): string {
    var json := PartialJson(run[..LastDelta(run)]);
    if json.Some? then json.value else ""
  }

  function Arguments(run: seq<ProxyEvent>, parse: string -> Option<Json>): Json {
    if LastDelta(run) == 0 then EmptyObject else ParseOr(parse, ParsedText(run))
  }

  /** The block at an index, said of the events addressed to that index alone. */
  function BlockOf(own: seq<ProxyEvent>, parse: string -> Option<Json>): Option<Block> {
    var run := SinceStart(own);
    if run == [] then None
    else
      match run[0]
      case TextStart(_) => Some(Text(Deltas(run), Signature(run)))
      case ThinkingStart(_) => Some(Thinking(Deltas(run), Signature(run)))
      case _ => Some(ToolCall(run[0].id, run[0].name, Arguments(run, parse), PartialJson(run)))
  }

  /** No delta follows the end of a tool call. */
  predicate WellFormed(run: seq<ProxyEvent>) {
    forall j, k | 0 <= j < k < |run| :: run[j].ToolCallEnd? ==> !IsDelta(run[k])
  }

  /** Whether an event fits the block it is addressed to: anything else makes the stream fail. */
  predicate Fits(block: Option<Block>, e: ProxyEvent) {
    match e
    case TextDelta(_, _) => block.Some? && block.value.Text?
    case TextEnd(_, _) => block.Some? && block.value.Text?
    case ThinkingDelta(_, _) => block.Some? && block.value.Thinking?
    case ThinkingEnd(_, _) => block.Some? && block.value.Thinking?
    case ToolCallDelta(_, _) => block.Some? && block.value.ToolCall?
    case _ => true
  }

  /** Every event fitted when it came. */
  predicate Accepted(events: seq<ProxyEvent>, parse: string -> Option<Json>) {
    forall k | 0 <= k < |events| && Index(events[k]).Some? ::
      Fits(BlockOf(Addressed(events[..k], events[k].i), parse), events[k])
  }

  /** The position of the last end of a tool call, or -1. */
  function LastEnd(run: seq<ProxyEvent>): (k: int)
    ensures -1 <= k < |run| && (k >= 0 ==> run[k].ToolCallEnd?) && forall j | k < j < |run| :: !run[j].ToolCallEnd?
  {
    if run == [] then -1
    else if run[|run| - 1].ToolCallEnd? then |run| - 1
    else LastEnd(run[..|run| - 1])
  }

  /**
   * No end comes before the last delta; or the deltas up to the last such end spell what the code puts in their
   * place.
   */
  predicate DeltasSurvive(run: seq<ProxyEvent>) {
    var given := run[..LastDelta(run)];
    LastEnd(given) < 0 || Deltas(given[..LastEnd(given)]) == "undefined"
  }

  /**
   * The arguments of a tool call are the parse of all its deltas joined exactly if no end precedes the
   * last delta, or the deltas before the last such end join to the word "undefined".
   */
  lemma {:induction false} ArgumentsExactly(run: seq<ProxyEvent>)
    requires run != [] && run[0].ToolCallStart? && ToolEventsOnly(run) && LastDelta(run) > 0
    ensures ParsedText(run) == Deltas(run) <==> DeltasSurvive(run)
  {
    var n := LastDelta(run);
    var given := run[..n];
    DeltasStop(run, n);
    var k := LastEnd(given);
    if k < 0 {
      JsonIsDeltas(given);
    } else {
      JsonAfterEnd(given, k);
      DeltasSplit(given, k);
      var before, after := Deltas(given[..k]), Deltas(given[k + 1..]);
      assert PartialJson(given) == Some("undefined" + after) && Deltas(given) == before + after;
      if "undefined" + after == before + after {
        assert |before| == |"undefined"|;
        assert before == (before + after)[..|before|] == ("undefined" + after)[..|before|] == "undefined";
      }
    }
  }

  lemma {:induction false} DeltasSplit(run: seq<ProxyEvent>, k: nat)
    requires k < |run| && run[k].ToolCallEnd?
    ensures Deltas(run) == Deltas(run[..k]) + Deltas(run[k + 1..])
  {
    var last := |run| - 1;
    if k == last {
      assert run[k + 1..] == [] && Deltas(run[..k]) + "" == Deltas(run[..k]);
    } else {
      DeltasSplit(run[..last], k);
      var after := run[k + 1..];
      assert run[..last][..k] == run[..k] && after[..|after| - 1] == run[..last][k + 1..];
      assert after[|after| - 1] == run[last];
    }
  }

  /** A tool call whose deltas all come before its end has the parse of all of them as its arguments. */
  lemma ArgumentsAreParsed(run: seq<ProxyEvent>, parse: string -> Option<Json>)
    requires run != [] && run[0].ToolCallStart? && WellFormed(run) && ToolEventsOnly(run)
    ensures Arguments(run, parse) == if LastDelta(run) == 0 then EmptyObject else ParseOr(parse, Deltas(run))
  {
    var n := LastDelta(run);
    if n > 0 {
      assert LastEnd(run[..n]) < 0 by {
        assert forall j | 0 <= j < n :: run[..n][j] == run[j];
      }
      ArgumentsExactly(run);
    }
  }

  function LateDelta(i: nat): seq<ProxyEvent> {
    [ToolCallStart(i, "id", "name"), ToolCallDelta(i, "x"), ToolCallEnd(i), ToolCallDelta(i, "y")]
  }

  lemma {:induction false} AllAddressed(events: seq<ProxyEvent>, i: nat)
    requires forall k | 0 <= k < |events| :: Index(events[k]) == Some(i)
    ensures Addressed(events, i) == events
  {
    hide Index;
    if events == [] {
      NothingAddressed(i);
    } else {
      var before, e := events[..|events| - 1], events[|events| - 1];
      AllAddressed(before, i);
      AddressedMore(before, e, i);
      assert events == before + [e];
    }
  }

  /** Events that start with the only start among them are a run. */
  lemma {:induction false} StartedOnce(events: seq<ProxyEvent>)
    requires events != [] && Begins(events[0]) && forall k | 1 <= k < |events| :: !Begins(events[k])
    ensures SinceStart(events) == events
  {
    hide Begins;
    SinceStartIsTheTail(events);
    var run := SinceStart(events);
    assert run != [] ==> run[0] == events[|events| - |run|];
  }

  /** Any delta or end for a block that was begun as a tool call, and not begun again, is accepted. */
  lemma {:induction false} ToolRunAccepted(run: seq<ProxyEvent>, i: nat, parse: string -> Option<Json>)
    requires run != [] && run[0].ToolCallStart? && ToolEventsOnly(run)
    requires forall k | 0 <= k < |run| :: Index(run[k]) == Some(i)
    ensures Accepted(run, parse) && SinceStart(Addressed(run, i)) == run
  {
    hide BlockOf, Addressed, SinceStart;
    AllAddressed(run, i);
    StartedOnce(run);
    forall k | 0 <= k < |run| && Index(run[k]).Some?
      ensures Fits(BlockOf(Addressed(run[..k], run[k].i), parse), run[k])
    {
      if k > 0 {
        ToolBlockFits(run, k, i, parse);
      }
    }
  }

  lemma ToolBlockFits(run: seq<ProxyEvent>, k: nat, i: nat, parse: string -> Option<Json>)
    requires 1 <= k < |run| && run[0].ToolCallStart? && ToolEventsOnly(run)
    requires forall k | 0 <= k < |run| :: Index(run[k]) == Some(i)
    ensures Fits(BlockOf(Addressed(run[..k], i), parse), run[k])
  {
    hide BlockOf, Addressed, SinceStart;
    var before := run[..k];
    assert forall j | 0 <= j < k :: before[j] == run[j];
    AllAddressed(before, i);
    StartedOnce(before);
    KindOfBlock(before, parse);
  }

  lemma NothingAddressed(i: nat)
    ensures Addressed([], i) == []
  {}

  /**
   * A late delta spoils the arguments: these events are accepted, but the parser is given "undefinedy" in
   * place of "xy".
   */
  lemma LateDeltaSpoils(i: nat, parse: string -> Option<Json>)
    ensures var run := LateDelta(i);
            && Accepted(run, parse) && SinceStart(Addressed(run, i)) == run
            && ToolEventsOnly(run) && Deltas(run) == "xy" && ParsedText(run) == "undefinedy"
  {
    hide *;
    LateDeltaIsToolRun(i);
    ToolRunAccepted(LateDelta(i), i, parse);
    LateDeltaText(i);
  }

  lemma LateDeltaIsToolRun(i: nat)
    ensures var run := LateDelta(i);
            && run != [] && run[0].ToolCallStart? && ToolEventsOnly(run)
            && forall k | 0 <= k < |run| :: Index(run[k]) == Some(i)
  {}

  lemma LateDeltaText(i: nat)
    ensures Deltas(LateDelta(i)) == "xy" && ParsedText(LateDelta(i)) == "undefinedy"
  {
    var run := LateDelta(i);
    assert run[..4] == run && run[..3][..2] == run[..2] && run[..2][..1] == run[..1] && run[..1][..0] == [];
    assert Deltas(run[..1]) == "" && Deltas(run[..2]) == "x" && Deltas(run[..3]) == "x";
    assert PartialJson(run[..1]) == Some("") && PartialJson(run[..2]) == Some("x") && PartialJson(run[..3]) == None;
    assert LastDelta(run) == 4;
  }

  predicate ToolEventsOnly(run: seq<ProxyEvent>) {
    forall k | 1 <= k < |run| :: run[k].ToolCallDelta? || run[k].ToolCallEnd?
  }

  lemma {:induction false} DeltasStop(run: seq<ProxyEvent>, n: nat)
    requires n <= |run| && forall k | n <= k < |run| :: !IsDelta(run[k])
    ensures Deltas(run) == Deltas(run[..n])
  {
    if n < |run| {
      var last := |run| - 1;
      DeltasStop(run[..last], n);
      assert run[..last][..n] == run[..n];
    } else {
      assert run[..n] == run;
    }
  }

  /** The kept JSON text is the joined deltas as long as no end has come. */
  lemma {:induction false} JsonIsDeltas(run: seq<ProxyEvent>)
    requires run != [] && run[0].ToolCallStart? && ToolEventsOnly(run)
    requires forall k | 0 <= k < |run| :: !run[k].ToolCallEnd?
    ensures PartialJson(run) == Some(Deltas(run))
  {
    var last := |run| - 1;
    if last == 0 {
      assert run[..0] == [] && Deltas(run[..0]) + "" == "";
      assert Deltas(run) == "";
    } else {
      JsonIsDeltas(run[..last]);
    }
  }

  /** After an end it starts again, from the word "undefined": late deltas spoil the arguments. */
  lemma {:induction false} JsonAfterEnd(run: seq<ProxyEvent>, k: nat)
    requires run != [] && run[0].ToolCallStart? && ToolEventsOnly(run) && k < |run| && run[k].ToolCallEnd?
    requires forall j | k < j < |run| :: !run[j].ToolCallEnd?
    ensures PartialJson(run) == if k + 1 == |run| then None else Some("undefined" + Deltas(run[k + 1..]))
  {
    var last := |run| - 1;
    if k < last {
      JsonAfterEnd(run[..last], k);
      var late := run[k + 1..];
      assert late[..|late| - 1] == run[..last][k + 1..];
      var between := late[..|late| - 1];
      assert Deltas(late) == Deltas(between) + run[last].delta;
      assert "undefined" + (Deltas(between) + run[last].delta) == ("undefined" + Deltas(between)) + run[last].delta;
      if k + 1 == last {
        assert between == [] && Deltas(between) == "";
        assert "undefined" + "" + run[last].delta == "undefined" + run[last].delta;
      }
    }
  }

  // ---------------------------------------------------------------- one event more

  lemma AddressedMore(events: seq<ProxyEvent>, e: ProxyEvent, i: nat)
    ensures Addressed(events + [e], i) == Addressed(events, i) + (if Index(e) == Some(i) then [e] else [])
  {
    assert (events + [e])[..|events|] == events;
  }

  lemma SinceStartMore(own: seq<ProxyEvent>, e: ProxyEvent)
    ensures SinceStart(own + [e]) ==
            if Begins(e) then [e] else if SinceStart(own) == [] then [] else SinceStart(own) + [e]
  {
    assert (own + [e])[..|own|] == own;
  }

  lemma RunMore(run: seq<ProxyEvent>, e: ProxyEvent, parse: string -> Option<Json>)
    requires run != []
    ensures Deltas(run + [e]) == Deltas(run) + (if IsDelta(e) then e.delta else "")
    ensures Signature(run + [e]) == if e.TextEnd? || e.ThinkingEnd? then e.signature else Signature(run)
    ensures PartialJson(run + [e]) ==
            match e {
              case ToolCallStart(_, _, _) => Some("")
              case ToolCallDelta(_, delta) =>
                Some((if PartialJson(run).Some? then PartialJson(run).value else "undefined") + delta)
              case ToolCallEnd(_) => None
              case _ => PartialJson(run)
            }
  {
    assert (run + [e])[..|run|] == run;
  }

  lemma ArgumentsMore(run: seq<ProxyEvent>, e: ProxyEvent, parse: string -> Option<Json>)
    requires run != []
    ensures !IsDelta(e) ==> Arguments(run + [e], parse) == Arguments(run, parse)
    ensures e.ToolCallDelta? ==> Arguments(run + [e], parse) == ParseOr(parse, PartialJson(run + [e]).value)
  {
    hide PartialJson;
    var more := run + [e];
    assert more[..|run|] == run;
    if IsDelta(e) {
      assert LastDelta(more) == |more| && more[..|more|] == more;
      JsonAfterDelta(more);
    } else {
      var n := LastDelta(run);
      assert more[..n] == run[..n];
    }
  }

  lemma JsonAfterDelta(run: seq<ProxyEvent>)
    ensures run != [] && run[|run| - 1].ToolCallDelta? ==> PartialJson(run).Some?
  {}

  /** The effect of one event on the block it is addressed to. */
  function After(block: Option<Block>, e: ProxyEvent, parse: string -> Option<Json>): Option<Block> {
    match (e, block)
    case (TextStart(_), _) => Some(Text("", None))
    case (ThinkingStart(_), _) => Some(Thinking("", None))
    case (ToolCallStart(_, id, name), _) => Some(ToolCall(id, name, EmptyObject, Some("")))
    case (TextDelta(_, delta), Some(Text(text, signature))) => Some(Text(text + delta, signature))
    case (TextEnd(_, signature), Some(Text(text, _))) => Some(Text(text, signature))
    case (ThinkingDelta(_, delta), Some(Thinking(text, signature))) => Some(Thinking(text + delta, signature))
    case (ThinkingEnd(_, signature), Some(Thinking(text, _))) => Some(Thinking(text, signature))
    case (ToolCallDelta(_, delta), Some(ToolCall(id, name, _, partialJson))) =>
      var json := (if partialJson.Some? then partialJson.value else "undefined") + delta;
      Some(ToolCall(id, name, ParseOr(parse, json), Some(json)))
    case (ToolCallEnd(_), Some(ToolCall(id, name, arguments, _))) => Some(ToolCall(id, name, arguments, None))
    case _ => block
  }

  /** Step by step the events build exactly the block that is said of all of them. */
  lemma BlockMore(own: seq<ProxyEvent>, e: ProxyEvent, parse: string -> Option<Json>)
    requires Index(e).Some? && Fits(BlockOf(own, parse), e)
    ensures BlockOf(own + [e], parse) == After(BlockOf(own, parse), e, parse)
  {
    hide Deltas, Signature, PartialJson, Arguments, SinceStart;
    SinceStartMore(own, e);
    var run := SinceStart(own);
    if Begins(e) {
      FreshRun(e, parse);
    } else if run != [] {
      RunMore(run, e, parse);
      ArgumentsMore(run, e, parse);
      assert Deltas(run) + "" == Deltas(run);
    }
  }

  lemma FreshRun(e: ProxyEvent, parse: string -> Option<Json>)
    requires Begins(e)
    ensures Deltas([e]) == "" && Signature([e]) == None && Arguments([e], parse) == EmptyObject
    ensures e.ToolCallStart? ==> PartialJson([e]) == Some("")
  {
    assert [e][..0] == [];
  }

  lemma AcceptedPrefix(events: seq<ProxyEvent>, n: nat, parse: string -> Option<Json>)
    requires Accepted(events, parse) && n <= |events|
    ensures Accepted(events[..n], parse)
  {
    hide BlockOf, Fits, Addressed;
    var before := events[..n];
    forall k | 0 <= k < n && Index(before[k]).Some?
      ensures Fits(BlockOf(Addressed(before[..k], before[k].i), parse), before[k])
    {
      assert before[k] == events[k] && before[..k] == events[..k];
    }
  }

  lemma FittingKeepsOneKind(own: seq<ProxyEvent>, e: ProxyEvent, parse: string -> Option<Json>)
    requires OneKind(SinceStart(own)) && Index(e).Some? && Fits(BlockOf(own, parse), e)
    ensures OneKind(SinceStart(own + [e]))
  {
    KindOfBlock(own, parse);
    KindGrows(own, e);
  }

  lemma KindOfBlock(own: seq<ProxyEvent>, parse: string -> Option<Json>)
    ensures var run, block := SinceStart(own), BlockOf(own, parse);
            && (block.None? <==> run == [])
            && (run != [] ==> (block.value.Text? <==> run[0].TextStart?)
                              && (block.value.Thinking? <==> run[0].ThinkingStart?))
  {
    hide Deltas, Signature, PartialJson, Arguments;
  }

  lemma KindGrows(own: seq<ProxyEvent>, e: ProxyEvent)
    requires OneKind(SinceStart(own))
    requires var run := SinceStart(own);
             !Begins(e) && run != [] ==>
               match run[0]
               case TextStart(_) => e.TextDelta? || e.TextEnd? || e.ToolCallEnd?
               case ThinkingStart(_) => e.ThinkingDelta? || e.ThinkingEnd? || e.ToolCallEnd?
               case _ => e.ToolCallDelta? || e.ToolCallEnd?
    ensures OneKind(SinceStart(own + [e]))
  {
    hide SinceStart;
    SinceStartMore(own, e);
  }

  /** Accepted events leave every block a run of one kind only (a stray end of a tool call does nothing). */
  lemma {:induction false} RunsAreOfOneKind(events: seq<ProxyEvent>, parse: string -> Option<Json>, i: nat)
    requires Accepted(events, parse)
    ensures OneKind(SinceStart(Addressed(events, i)))
  {
    hide BlockOf, Fits, OneKind, SinceStart;
    if events == [] {
      NothingStarted();
    } else {
      var last := |events| - 1;
      var before, e := events[..last], events[last];
      AcceptedPrefix(events, last, parse);
      RunsAreOfOneKind(before, parse, i);
      if Index(e) == Some(i) {
        FittingKeepsOneKind(Addressed(before, i), e, parse);
      } else {
        assert Addressed(before, i) + [] == Addressed(before, i);
      }
    }
  }

  predicate OneKind(run: seq<ProxyEvent>) {
    forall k | 1 <= k < |run| ::
      match run[0]
      case TextStart(_) => run[k].TextDelta? || run[k].TextEnd? || run[k].ToolCallEnd?
      case ThinkingStart(_) => run[k].ThinkingDelta? || run[k].ThinkingEnd? || run[k].ToolCallEnd?
      case _ => run[k].ToolCallDelta? || run[k].ToolCallEnd?
  }

  lemma NothingStarted()
    ensures SinceStart([]) == [] && OneKind([])
  {}

  // ---------------------------------------------------------------- what the consumer sees

  function Reply(e: ProxyEvent, block: Option<Block>): Option<StreamEvent> {
    match e
    case TextEnd(i, _) => Some(Closed(i, if block.Some? && !block.value.ToolCall? then block.value.text else ""))
    case ThinkingEnd(i, _) => Some(Closed(i, if block.Some? && !block.value.ToolCall? then block.value.text else ""))
    case ToolCallEnd(i) => if block.Some? && block.value.ToolCall? then Some(ToolClosed(i, block.value)) else None
    case Done(reason) => Some(Finished(reason))
    case Error(reason, message) => Some(Failed(reason, message))
    case Unknown => None
    case _ => Some(Passed(e))
  }

  function Replies(events: seq<ProxyEvent>, parse: string -> Option<Json>): seq<StreamEvent> {
    if events == [] then []
    else
      var last := |events| - 1;
      var block := if Index(events[last]).Some? then BlockOf(Addressed(events, events[last].i), parse) else None;
      var reply := Reply(events[last], block);
      Replies(events[..last], parse) + (if reply.Some? then [reply.value] else [])
  }

  /** What a consumer is shown of an event, given the run of its block up to and including it. */
  predicate ShownAs(e: ProxyEvent, run: seq<ProxyEvent>, parse: string -> Option<Json>, reply: Option<StreamEvent>) {
    match e
    case TextEnd(i, _) => run != [] && run[0].TextStart? && reply == Some(Closed(i, Deltas(run)))
    case ThinkingEnd(i, _) => run != [] && run[0].ThinkingStart? && reply == Some(Closed(i, Deltas(run)))
    case ToolCallEnd(i) =>
      if run == [] || !run[0].ToolCallStart? then reply.None?
      else reply == Some(ToolClosed(i, ToolCall(run[0].id, run[0].name, Arguments(run, parse), None)))
    case Done(reason) => reply == Some(Finished(reason))
    case Error(reason, message) => reply == Some(Failed(reason, message))
    case Unknown => reply.None?
    case _ => reply == Some(Passed(e))
  }

  /**
   * The consumer is shown every accepted event in turn: starts and deltas as they came; the end of a text or a
   * thinking block with all deltas of the block; the end of a tool call with the call it rebuilt; and nothing
   * of a stray end or of an event of no known kind.
   */
  lemma ConsumerSees(events: seq<ProxyEvent>, e: ProxyEvent, parse: string -> Option<Json>)
    returns (reply: Option<StreamEvent>)
    requires Accepted(events + [e], parse)
    ensures Replies(events + [e], parse) == Replies(events, parse) + (if reply.Some? then [reply.value] else [])
    ensures ShownAs(e, if Index(e).Some? then SinceStart(Addressed(events + [e], e.i)) else [], parse, reply)
  {
    hide BlockOf, Addressed, SinceStart, Deltas, Arguments, Fits;
    var block := if Index(e).Some? then BlockOf(Addressed(events + [e], e.i), parse) else None;
    reply := Reply(e, block);
    RepliesMore(events, e, parse);
    if Index(e).Some? {
      var own := Addressed(events, e.i);
      assert (events + [e])[..|events|] == events && (events + [e])[|events|] == e;
      AddressedMore(events, e, e.i);
      LastShown(own, e, parse);
    }
  }

  lemma LastShown(own: seq<ProxyEvent>, e: ProxyEvent, parse: string -> Option<Json>)
    requires Index(e).Some? && Fits(BlockOf(own, parse), e)
    ensures ShownAs(e, SinceStart(own + [e]), parse, Reply(e, BlockOf(own + [e], parse)))
  {
    hide Deltas, Arguments, SinceStart, Signature, PartialJson;
    SinceStartMore(own, e);
    var run := SinceStart(own);
    if run != [] && e.ToolCallEnd? {
      RunMore(run, e, parse);
    }
  }

  predicate HasTerminal(events: seq<StreamEvent>) {
    exists e <- events :: Terminal(e)
  }

  /** Everything up to and including the first terminal event. */
  function UpToTerminal(events: seq<StreamEvent>): (r: seq<StreamEvent>)
    ensures r <= events && (HasTerminal(r) <==> HasTerminal(events)) && (!HasTerminal(events) ==> r == events)
    ensures forall k | 0 <= k < |r| - 1 :: !Terminal(r[k])
  {
    if events == [] then []
    else
      var last := |events| - 1;
      assert events == events[..last] + [events[last]];
      if HasTerminal(events[..last]) then UpToTerminal(events[..last]) else events
  }

  lemma UpToTerminalMore(events: seq<StreamEvent>, e: StreamEvent)
    ensures UpToTerminal(events + [e]) ==
            if HasTerminal(events) then UpToTerminal(events) else UpToTerminal(events) + [e]
    ensures HasTerminal(events + [e]) <==> HasTerminal(events) || Terminal(e)
  {
    assert (events + [e])[..|events|] == events;
  }

  lemma SameTerminal(events: seq<StreamEvent>, e: StreamEvent)
    ensures HasTerminal(UpToTerminal(events)) <==> HasTerminal(events)
    ensures HasTerminal(UpToTerminal(events) + [e]) <==> HasTerminal(events) || Terminal(e)
  {
    var seen := UpToTerminal(events);
    assert (seen + [e])[|seen|] == e;
    assert forall x <- seen :: x in seen + [e];
  }

  function StopReasonOf(events: seq<ProxyEvent>): string {
    if events == [] then "stop"
    else
      var last := |events| - 1;
      if events[last].Done? || events[last].Error? then events[last].reason else StopReasonOf(events[..last])
  }

  // ---------------------------------------------------------------- payloads

  /** The payload of a data line; any other line, or a blank payload, carries none. */
  function PayloadOf(line: string, trim: string -> string): Option<string> {
    if "data: " <= line && trim(line[6..]) != "" then Some(trim(line[6..])) else None
  }

  /** A line carries a payload exactly if it starts with the six characters of a data field, and is not blank behind. */
  lemma PayloadExactly(line: string, trim: string -> string)
    ensures PayloadOf(line, trim).Some? <==>
              && |line| >= 6 && line[0] == 'd' && line[1] == 'a' && line[2] == 't' && line[3] == 'a'
              && line[4] == ':' && line[5] == ' ' && trim(line[6..]) != ""
    ensures PayloadOf(line, trim).Some? ==> PayloadOf(line, trim).value == trim(line[6..])
  {
    if |line| >= 6 {
      assert line[..6] == [line[0], line[1], line[2], line[3], line[4], line[5]];
    }
  }

  function Payloads(lines: seq<string>, trim: string -> string): seq<string> {
    if lines == [] then []
    else
      var last := |lines| - 1;
      var payload := PayloadOf(lines[last], trim);
      Payloads(lines[..last], trim) + (if payload.Some? then [payload.value] else [])
  }

  lemma PayloadsMore(lines: seq<string>, line: string, trim: string -> string)
    ensures Payloads(lines + [line], trim) ==
            Payloads(lines, trim) + (if PayloadOf(line, trim).Some? then [PayloadOf(line, trim).value] else [])
  {
    assert (lines + [line])[..|lines|] == lines;
  }

  lemma {:induction false} PayloadsOfPrefix(lines: seq<string>, n: nat, trim: string -> string)
    requires n <= |lines|
    ensures Payloads(lines[..n], trim) <= Payloads(lines, trim)
  {
    if n < |lines| {
      PayloadsOfPrefix(lines[..|lines| - 1], n, trim);
      assert lines[..|lines| - 1][..n] == lines[..n];
    } else {
      assert lines[..n] == lines;
    }
  }

  /** One read of the response body. */
  datatype Read = Piece(text: string) | Broken

  function TextOf(body: seq<Read>): string {
    if body == [] then ""
    else
      var last := |body| - 1;
      TextOf(body[..last]) + (if body[last].Piece? then body[last].text else "")
  }

  /** How a stream ended. */
  datatype Ending = Completed | Aborted | ConnectionFailed | BadPayload | MisplacedEvent

  class ProxyStream {
    const parse: string -> Option<Json>
    /** `JSON.parse` of a payload; none when it throws. */
    const decode: string -> Option<ProxyEvent>
    const trim: string -> string
    var content: map<nat, Block>
    var stopReason: string
    var aborted: bool
    /** The event stream: what was pushed to it, and whether it takes no more. */
    var pushed: seq<StreamEvent>
    var closed: bool
    ghost var processed: seq<ProxyEvent>

    constructor (parse: string -> Option<Json>, decode: string -> Option<ProxyEvent>, trim: string -> string)
      ensures Valid() && processed == [] && pushed == [] && !closed
      ensures this.parse == parse && this.decode == decode && this.trim == trim
    {
      this.parse, this.decode, this.trim := parse, decode, trim;
      content, stopReason, aborted, pushed, closed, processed := map[], "stop", false, [], false, [];
    }

    /** Each block is what the events addressed to it alone say. */
    ghost predicate Valid()
      reads this`content, this`processed
    {
      && (forall i: nat :: Look(content, i) == BlockOf(Addressed(processed, i), parse))
      && Accepted(processed, parse)
    }

    /** The consumer has seen the replies, up to the first that ends the stream. */
    ghost predicate Delivering()
      reads this`pushed, this`closed, this`stopReason, this`processed
    {
      && pushed == UpToTerminal(Replies(processed, parse))
      && (closed <==> HasTerminal(pushed)) && stopReason == StopReasonOf(processed)
    }

    method Push(e: StreamEvent)
      modifies this`pushed, this`closed
      ensures pushed == (if old(closed) then old(pushed) else old(pushed) + [e])
              && closed == (old(closed) || Terminal(e))
    {
      if closed {
        return;
      }
      if Terminal(e) {
        closed := true;
      }
      pushed := pushed + [e];
    }

    /** An event that does not fit its block throws and changes nothing. */
    method ProcessProxyEvent(e: ProxyEvent) returns (ok: bool, reply: Option<StreamEvent>)
      requires Valid()
      modifies this`content, this`stopReason, this`processed
      ensures Valid()
      ensures ok <==> Index(e).None? || Fits(Look(old(content), e.i), e)
      ensures !ok ==> processed == old(processed) && content == old(content) && stopReason == old(stopReason)
      ensures ok ==> processed == old(processed) + [e]
                     && reply == Reply(e, if Index(e).Some? then Look(content, e.i) else None)
                     && stopReason == (if e.Done? || e.Error? then e.reason else old(stopReason))
    {
      hide BlockOf, Addressed;
      ok, reply := true, None;
      match e {
        case TextStart(i) => content := content[i := Text("", None)];
        case ThinkingStart(i) => content := content[i := Thinking("", None)];
        case ToolCallStart(i, id, name) => content := content[i := ToolCall(id, name, EmptyObject, Some(""))];
        case TextDelta(i, delta) =>
          if i !in content || !content[i].Text? {
            return false, None;
          }
          content := content[i := Text(content[i].text + delta, content[i].signature)];
        case TextEnd(i, signature) =>
          if i !in content || !content[i].Text? {
            return false, None;
          }
          content := content[i := Text(content[i].text, signature)];
        case ThinkingDelta(i, delta) =>
          if i !in content || !content[i].Thinking? {
            return false, None;
          }
          content := content[i := Thinking(content[i].text + delta, content[i].signature)];
        case ThinkingEnd(i, signature) =>
          if i !in content || !content[i].Thinking? {
            return false, None;
          }
          content := content[i := Thinking(content[i].text, signature)];
        case ToolCallDelta(i, delta) =>
          if i !in content || !content[i].ToolCall? {
            return false, None;
          }
          var json := (if content[i].partialJson.Some? then content[i].partialJson.value else "undefined") + delta;
          content := content[i := content[i].(partialJson := Some(json), arguments := ParseOr(parse, json))];
        case ToolCallEnd(i) =>
          if i in content && content[i].ToolCall? {
            content := content[i := content[i].(partialJson := None)];
          }
        case Done(reason) => stopReason := reason;
        case Error(reason, _) => stopReason := reason;
        case _ =>
      }
      processed := processed + [e];
      Consumed(old(processed), e, old(content), content, parse);
      reply := Reply(e, if Index(e).Some? then Look(content, e.i) else None);
    }

    /** One line: nothing unless it is a data line with a payload. */
    method ProcessLine(line: string) returns (ending: Ending)
      requires Valid() && Delivering()
      modifies this`content, this`stopReason, this`processed, this`pushed, this`closed
      ensures Valid() && Delivering()
      ensures ending in {Completed, BadPayload, MisplacedEvent}
      ensures ending != Completed ==> processed == old(processed)
      ensures ending == Completed ==>
                match PayloadOf(line, trim)
                case None => processed == old(processed)
                case Some(payload) => decode(payload).Some? && processed == old(processed) + [decode(payload).value]
      ensures ending != Completed ==> PayloadOf(line, trim).Some? && Refused(processed, PayloadOf(line, trim).value)
    {
      hide BlockOf, Addressed, Accepted, Fits, Delivering, Valid;
      ending := Completed;
      if "data: " <= line {
        var data := trim(line[6..]);
        if data != "" {
          match decode(data) {
            case None => ending := BadPayload;
            case Some(e) =>
              var ok := HandleEvent(e);
              ending := if ok then Completed else MisplacedEvent;
          }
        }
      }
    }

    /** Folds an event in and passes on its reply, if it has one. */
    method HandleEvent(e: ProxyEvent) returns (ok: bool)
      requires Valid() && Delivering()
      modifies this`content, this`stopReason, this`processed, this`pushed, this`closed
      ensures Valid() && Delivering()
      ensures ok ==> processed == old(processed) + [e]
      ensures !ok ==> processed == old(processed) && Index(e).Some?
                      && !Fits(BlockOf(Addressed(processed, e.i), parse), e)
    {
      hide BlockOf, Addressed, Accepted, Fits, Replies, UpToTerminal, HasTerminal, StopReasonOf;
      var reply;
      ok, reply := ProcessProxyEvent(e);
      if ok {
        RepliesMore(old(processed), e, parse);
        if reply.Some? {
          UpToTerminalMore(Replies(old(processed), parse), reply.value);
          SameTerminal(Replies(old(processed), parse), reply.value);
          Push(reply.value);
        }
      }
    }

    /** The payload is no event, or one that does not fit the block it is addressed to. */
    ghost predicate Refused(events: seq<ProxyEvent>, payload: string) {
      match decode(payload)
      case None => true
      case Some(e) => Index(e).Some? && !Fits(BlockOf(Addressed(events, e.i), parse), e)
    }

    /** The events are what the first payloads say. */
    ghost predicate FollowsPayloads(events: seq<ProxyEvent>, payloads: seq<string>) {
      |events| <= |payloads| && forall k | 0 <= k < |events| :: decode(payloads[k]) == Some(events[k])
    }

    /** The lines of one piece, until one of them fails. */
    method ProcessLines(lines: seq<string>, ghost earlier: seq<string>) returns (ending: Ending)
      requires Valid() && Delivering()
      requires FollowsPayloads(processed, Payloads(earlier, trim)) && |processed| == |Payloads(earlier, trim)|
      modifies this`content, this`stopReason, this`processed, this`pushed, this`closed
      ensures Valid() && Delivering() && ending in {Completed, BadPayload, MisplacedEvent}
      ensures FollowsPayloads(processed, Payloads(earlier + lines, trim))
      ensures ending == Completed ==> |processed| == |Payloads(earlier + lines, trim)|
      ensures ending != Completed ==>
                |processed| < |Payloads(earlier + lines, trim)|
                && Refused(processed, Payloads(earlier + lines, trim)[|processed|])
    {
      hide Valid, Delivering, Payloads, PayloadOf, Refused;
      assert earlier + lines[..0] == earlier;
      for n := 0 to |lines|
        invariant Valid() && Delivering()
        invariant FollowsPayloads(processed, Payloads(earlier + lines[..n], trim))
        invariant |processed| == |Payloads(earlier + lines[..n], trim)|
      {
        assert earlier + lines[..n + 1] == (earlier + lines[..n]) + [lines[n]];
        PayloadsMore(earlier + lines[..n], lines[n], trim);
        ending := ProcessLine(lines[n]);
        if ending != Completed {
          assert (earlier + lines)[..|earlier| + n + 1] == earlier + lines[..n + 1];
          PayloadsOfPrefix(earlier + lines, |earlier| + n + 1, trim);
          return;
        }
      }
      assert lines[..|lines|] == lines;
      ending := Completed;
    }

    /** The abort signal may fire at any time and never goes back. */
    method Yield()
      modifies this`aborted
      ensures old(aborted) ==> aborted
    {
      var fired: bool :| true;
      aborted := aborted || fired;
    }

    /** Exactly the complete lines of the first `taken` reads have been processed, and none of these reads broke. */
    ghost predicate ReadUpTo(body: seq<Read>, taken: nat)
      reads this
    {
      && taken <= |body| && Broken !in body[..taken]
      && |processed| == |Payloads(Lines(TextOf(body[..taken]), '\n'), trim)|
    }

    /** Reads the whole body, keeping the unfinished line between reads. */
    method ReadBody(body: seq<Read>) returns (ending: Ending, ghost taken: nat)
      requires Valid() && Delivering() && processed == []
      modifies this`content, this`stopReason, this`processed, this`pushed, this`closed, this`aborted
      ensures Valid() && Delivering()
      ensures FollowsPayloads(processed, Payloads(Lines(TextOf(body), '\n'), trim))
      ensures ending in {Completed, Aborted, ConnectionFailed} ==> ReadUpTo(body, taken)
      ensures ending == Completed ==> !aborted && taken == |body|
      ensures ending == Aborted ==> aborted
      ensures ending == ConnectionFailed ==> taken < |body| && body[taken] == Broken
      ensures ending in {BadPayload, MisplacedEvent} ==>
                |processed| < |Payloads(Lines(TextOf(body), '\n'), trim)|
                && Refused(processed, Payloads(Lines(TextOf(body), '\n'), trim)[|processed|])
    {
      hide Valid, Delivering, Refused, Payloads, TextOf, Lines, Unfinished, Accepted;
      var buffer := "";
      taken := 0;
      NothingReceived(trim);
      for n := 0 to |body|
        invariant Valid() && Delivering() && Broken !in body[..n]
        invariant FollowsPayloads(processed, Payloads(Lines(TextOf(body[..n]), '\n'), trim))
        invariant |processed| == |Payloads(Lines(TextOf(body[..n]), '\n'), trim)|
        invariant buffer == Unfinished(TextOf(body[..n]), '\n')
      {
        taken := n;
        Yield();
        ReadSoFar(body, n, trim);
        if body[n].Broken? {
          return ConnectionFailed, taken;
        }
        if aborted {
          return Aborted, taken;
        }
        ghost var earlier := Lines(TextOf(body[..n]), '\n');
        ReadSoFar(body, n + 1, trim);
        TextMore(body, n);
        NextPiece(TextOf(body[..n]), body[n].text, '\n');
        var lines := Lines(buffer + body[n].text, '\n');
        buffer := Unfinished(buffer + body[n].text, '\n');
        ending := ProcessLines(lines, earlier);
        if ending != Completed {
          return;
        }
      }
      taken := |body|;
      assert body[..|body|] == body;
      Yield();
      ending := if aborted then Aborted else Completed;
    }

    /**
     * The stream as a whole. A failure of any kind puts one error event at the end of the stream, unless
     * the server had ended it before.
     */
    method StreamProxy(accepted: bool, body: seq<Read>) returns (ending: Ending, ghost taken: nat)
      requires Valid() && Delivering() && processed == []
      modifies this
      ensures Valid() && closed
      ensures forall k | 0 <= k < |pushed| - 1 :: !Terminal(pushed[k])
      ensures var payloads := Payloads(Lines(TextOf(body), '\n'), trim);
              && FollowsPayloads(processed, payloads)
              && (ending in {BadPayload, MisplacedEvent} ==>
                    |processed| < |payloads| && Refused(processed, payloads[|processed|]))
      ensures ending !in {BadPayload, MisplacedEvent} ==> ReadUpTo(body, taken)
      ensures ending == Completed ==> accepted && !aborted && taken == |body|
      ensures ending == Aborted ==> accepted && aborted
      ensures ending == ConnectionFailed ==>
                if accepted then taken < |body| && body[taken] == Broken else taken == 0
      ensures ending == Completed ==> pushed == UpToTerminal(Replies(processed, parse))
      ensures ending != Completed ==>
                var seen := UpToTerminal(Replies(processed, parse));
                if HasTerminal(seen) then pushed == seen
                else |pushed| == |seen| + 1 && seen <= pushed
                     && pushed[|seen|].Failed? && pushed[|seen|].reason == stopReason
                     && (stopReason == if aborted then "aborted" else "error")
    {
      hide BlockOf, Addressed, Accepted, Payloads, Lines, TextOf, Refused, Replies, UpToTerminal, StopReasonOf;
      Yield();
      if accepted {
        ending, taken := ReadBody(body);
      } else {
        NothingReceived(trim);
        ending, taken := ConnectionFailed, 0;
      }
      if ending != Completed {
        stopReason := if aborted then "aborted" else "error";
        var message: string :| true;
        Push(Failed(stopReason, Some(message)));
      }
      closed := true;
    }
  }

  lemma RepliesMore(events: seq<ProxyEvent>, e: ProxyEvent, parse: string -> Option<Json>)
    ensures var block := if Index(e).Some? then BlockOf(Addressed(events + [e], e.i), parse) else None;
            Replies(events + [e], parse) ==
            Replies(events, parse) + (if Reply(e, block).Some? then [Reply(e, block).value] else [])
    ensures StopReasonOf(events + [e]) == if e.Done? || e.Error? then e.reason else StopReasonOf(events)
    ensures Replies(events, parse) + [] == Replies(events, parse)
  {
    hide BlockOf, Addressed;
    assert (events + [e])[..|events|] == events;
  }

  lemma NothingReceived(trim: string -> string)
    ensures TextOf([]) == "" && Unfinished("", '\n') == "" && Payloads(Lines("", '\n'), trim) == []
  {}

  lemma TextMore(body: seq<Read>, n: nat)
    requires n < |body| && body[n].Piece?
    ensures TextOf(body[..n + 1]) == TextOf(body[..n]) + body[n].text
  {
    assert body[..n + 1][..n] == body[..n];
  }

  /** What has been read so far yields the first of the payloads. */
  lemma {:induction false} ReadSoFar(body: seq<Read>, n: nat, trim: string -> string)
    requires n <= |body|
    ensures Payloads(Lines(TextOf(body[..n]), '\n'), trim) <= Payloads(Lines(TextOf(body), '\n'), trim)
    decreases |body| - n
  {
    hide Payloads, Lines;
    if n == |body| {
      assert body[..n] == body;
    } else {
      ReadSoFar(body, n + 1, trim);
      assert body[..n + 1][..n] == body[..n];
      var piece := if body[n].Piece? then body[n].text else "";
      assert TextOf(body[..n + 1]) == TextOf(body[..n]) + piece;
      NextPiece(TextOf(body[..n]), piece, '\n');
      var before, after := Lines(TextOf(body[..n]), '\n'), Lines(TextOf(body[..n + 1]), '\n');
      assert after[..|before|] == before;
      PayloadsOfPrefix(after, |before|, trim);
    }
  }

  function Look(content: map<nat, Block>, i: nat): Option<Block> {
    if i in content then Some(content[i]) else None
  }

  lemma Consumed(events: seq<ProxyEvent>, e: ProxyEvent, before: map<nat, Block>, after: map<nat, Block>,
                 parse: string -> Option<Json>)
    requires forall i: nat :: Look(before, i) == BlockOf(Addressed(events, i), parse)
    requires Accepted(events, parse)
    requires Index(e).Some? ==> Fits(Look(before, e.i), e) && Look(after, e.i) == After(Look(before, e.i), e, parse)
    requires forall i: nat | Index(e) != Some(i) :: Look(after, i) == Look(before, i)
    ensures forall i: nat :: Look(after, i) == BlockOf(Addressed(events + [e], i), parse)
    ensures Accepted(events + [e], parse)
  {
    hide BlockOf, Fits, After, Addressed;
    var longer := events + [e];
    forall i: nat ensures Look(after, i) == BlockOf(Addressed(longer, i), parse) {
      AddressedMore(events, e, i);
      assert Addressed(events, i) + [] == Addressed(events, i);
      if Index(e) == Some(i) {
        BlockMore(Addressed(events, i), e, parse);
      }
    }
    forall k | 0 <= k < |longer| && Index(longer[k]).Some?
      ensures Fits(BlockOf(Addressed(longer[..k], longer[k].i), parse), longer[k])
    {
      if k < |events| {
        assert longer[..k] == events[..k];
      } else {
        assert longer[..k] == events;
      }
    }
  }

  /** The message a stream rebuilds, block by block. */
  lemma RebuiltBlocks(p: ProxyStream, i: nat)
    requires p.Valid() && i in p.content
    ensures var run := SinceStart(Addressed(p.processed, i));
            && run != [] && OneKind(run)
            && match p.content[i] {
                 case Text(text, signature) => run[0].TextStart? && text == Deltas(run) && signature == Signature(run)
                 case Thinking(text, signature) => run[0].ThinkingStart? && text == Deltas(run)
                   && signature == Signature(run)
                 case ToolCall(id, name, arguments, _) =>
                   && run[0] == ToolCallStart(run[0].i, id, name)
                   && arguments == (if LastDelta(run) == 0 then EmptyObject else ParseOr(p.parse, ParsedText(run)))
                   && (LastDelta(run) > 0 ==> (ParsedText(run) == Deltas(run) <==> DeltasSurvive(run)))
               }
  {
    hide Deltas, Signature, PartialJson, ParsedText, SinceStart, Addressed, DeltasSurvive, ParseOr, Accepted;
    RunsAreOfOneKind(p.processed, p.parse, i);
    assert Look(p.content, i) == BlockOf(Addressed(p.processed, i), p.parse);
    var run := SinceStart(Addressed(p.processed, i));
    if p.content[i].ToolCall? && LastDelta(run) > 0 {
      ArgumentsExactly(run);
    }
  }

  /** A stream that was neither aborted nor cut off has processed all payloads, or stopped at one it refused. */
  ghost predicate RanThrough(p: ProxyStream, payloads: seq<string>)
    reads p
  {
    && p.FollowsPayloads(p.processed, payloads)
    && (|p.processed| < |payloads| ==> p.Refused(p.processed, payloads[|p.processed|]))
  }

  lemma NotRefused(q: ProxyStream, payloads: seq<string>, n: nat)
    requires q.Valid() && q.FollowsPayloads(q.processed, payloads) && n < |q.processed|
    ensures !q.Refused(q.processed[..n], payloads[n])
  {
    hide BlockOf, Addressed;
    assert q.decode(payloads[n]) == Some(q.processed[n]);
  }

  lemma RefusedStops(p: ProxyStream, q: ProxyStream, payloads: seq<string>)
    requires q.Valid() && p.parse == q.parse && p.decode == q.decode
    requires RanThrough(p, payloads) && q.FollowsPayloads(q.processed, payloads)
    ensures |q.processed| <= |p.processed| && q.processed == p.processed[..|q.processed|]
  {
    hide BlockOf, Addressed, Accepted;
    var n := if |p.processed| < |q.processed| then |p.processed| else |q.processed|;
    forall k | 0 <= k < n ensures p.processed[k] == q.processed[k] {
      assert p.decode(payloads[k]) == Some(p.processed[k]) && q.decode(payloads[k]) == Some(q.processed[k]);
    }
    if n < |q.processed| {
      NotRefused(q, payloads, n);
    }
    assert n == |p.processed| ==> p.processed == q.processed[..n];
  }

  /**
   * Two streams that read the same text in different pieces rebuild the same message, whether they ran to
   * the end of it or stopped at a payload they refused.
   */
  lemma ReadsDoNotMatter(p: ProxyStream, q: ProxyStream, pBody: seq<Read>, qBody: seq<Read>)
    requires p.Valid() && q.Valid() && p.parse == q.parse && p.decode == q.decode && p.trim == q.trim
    requires TextOf(pBody) == TextOf(qBody)
    requires RanThrough(p, Payloads(Lines(TextOf(pBody), '\n'), p.trim))
    requires RanThrough(q, Payloads(Lines(TextOf(qBody), '\n'), q.trim))
    ensures p.processed == q.processed && p.content == q.content
  {
    hide BlockOf, Addressed, RanThrough;
    var payloads := Payloads(Lines(TextOf(pBody), '\n'), p.trim);
    RunsFollow(p, payloads);
    RunsFollow(q, payloads);
    RefusedStops(p, q, payloads);
    RefusedStops(q, p, payloads);
    assert p.processed == q.processed;
    forall i: nat ensures i in p.content <==> i in q.content
                  ensures i in p.content ==> p.content[i] == q.content[i]
    {
      assert Look(p.content, i) == Look(q.content, i);
    }
  }

  lemma RunsFollow(p: ProxyStream, payloads: seq<string>)
    requires RanThrough(p, payloads)
    ensures p.FollowsPayloads(p.processed, payloads)
  {}
}
