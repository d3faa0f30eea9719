/** The kernel protocol client: one JSON line per event in, one JSON line per request out. */
module Kernel {
  import opened Wrappers
  import opened Framing

  newtype byte = x: int | 0 <= x < 256

  const NEWLINE: byte := 10
  const LIMIT: nat := 8_000_000

  datatype Failure = TimedOut | Exited | TooLarge | Invalid | WriteFailed | NotAcknowledged | RequestFailed

  datatype Result<+T> = Ok(value: T) | Err(failure: Failure)

  /** What the client looks at in an event. */
  datatype KernelEvent = KernelEvent(kind: string, id: string, status: string, ename: string)

  predicate Finishes(event: KernelEvent, id: string) {
    event.kind == "done" && event.id == id
  }

  /** The last event, and no other, finishes the request. */
  predicate EndsWith(events: seq<KernelEvent>, id: string) {
    events != [] && forall i | 0 <= i < |events| :: Finishes(events[i], id) <==> i == |events| - 1
  }

  /** The last event says what it should: success, or an error that an interrupt of this request caused. */
  predicate WantedEnd(events: seq<KernelEvent>, id: string, interrupted: bool)
    requires events != []
  {
    var status := events[|events| - 1].status;
    if interrupted then status == "error" && exists e <- events :: e.ename == "KeyboardInterrupt" && e.id == id
    else status == "ok"
  }

  class Kernel {
    /** `json.loads` together with the check that the event is an object with a string kind. */
    const parse: seq<byte> -> Option<KernelEvent>
    var raw: seq<seq<byte>>
    var pending: seq<byte>
    var lines: seq<seq<byte>>
    var bytes: nat
    /** Everything the process accepted on its standard input. */
    var input: seq<byte>
    /** The lines taken as events. */
    ghost var taken: seq<seq<byte>>
    /** The requests sent completely; none after a write failed. */
    ghost var sent: seq<seq<byte>>

    constructor (parse: seq<byte> -> Option<KernelEvent>)
      ensures Valid() && this.parse == parse && taken == [] && sent == [] && input == [] && InputIntact()
    {
      this.parse := parse;
      raw, pending, lines, bytes, input, taken, sent := [], [], [], 0, [], [], [];
    }

    /** The lines taken, the lines waiting and the unfinished line are the output so far, cut at every newline. */
    ghost predicate Valid()
      reads this
    {
      && taken + lines == Lines(Flat(raw), NEWLINE) && pending == Unfinished(Flat(raw), NEWLINE)
      && |Flat(raw)| <= bytes && (|Flat(raw)| < bytes ==> LIMIT < bytes)
      && |Flat(raw)| <= LIMIT
    }

    /** What the process has received is the requests sent, one a line. */
    ghost predicate InputIntact()
      reads this
    {
      input == Join(sent + [[]], NEWLINE)
    }

    /** No complete line is left, and reading stopped: no output in time, its end, or too much of it. */
    predicate NothingWaits(failure: Failure)
      reads this
    {
      lines == [] && failure in {TimedOut, Exited, TooLarge} && (failure == TooLarge ==> bytes > LIMIT)
    }

    /** The lines taken from a place on are these events. */
    ghost predicate Took(from: nat, events: seq<KernelEvent>)
      reads this
    {
      from + |events| <= |taken| && forall i | 0 <= i < |events| :: parse(taken[from + i]) == Some(events[i])
    }

    /** Why `Done` may give up, after it has taken these events. */
    ghost predicate GivesUp(failure: Failure, from: nat, events: seq<KernelEvent>, id: string, interrupted: bool)
      reads this
    {
      && Took(from, events)
      && match failure
         case Invalid =>
           && |taken| == from + |events| + 1 && parse(taken[|taken| - 1]) == None
           && (forall e <- events :: !Finishes(e, id))
         case NotAcknowledged =>
           interrupted && |taken| == from + |events| && EndsWith(events, id) && !WantedEnd(events, id, interrupted)
         case RequestFailed =>
           !interrupted && |taken| == from + |events| && EndsWith(events, id) && !WantedEnd(events, id, interrupted)
         case _ =>
           |taken| == from + |events| && (forall e <- events :: !Finishes(e, id)) && NothingWaits(failure)
    }

    /** Reads until a complete line waits. */
    method Fill() returns (failure: Option<Failure>)
      requires Valid()
      modifies this`raw, this`pending, this`lines, this`bytes
      ensures Valid()
      ensures |raw| >= |old(raw)| && raw[..|old(raw)|] == old(raw) && bytes >= old(bytes)
      ensures if failure.None? then lines != [] else NothingWaits(failure.value)
      ensures old(lines) != [] ==> raw == old(raw)
    {
      while lines == []
        invariant Valid() && |raw| >= |old(raw)| && raw[..|old(raw)|] == old(raw) && bytes >= old(bytes)
        invariant old(lines) != [] ==> raw == old(raw) && lines == old(lines)
        decreases LIMIT + 1 - bytes
      {
        var arrived: bool :| true;
        if !arrived {
          return Some(TimedOut);
        }
        var chunk: seq<byte> :| |chunk| <= 65536;
        if chunk == [] {
          return Some(Exited);
        }
        bytes := bytes + |chunk|;
        if bytes > LIMIT {
          return Some(TooLarge);
        }
        NextPiece(Flat(raw), chunk, NEWLINE);
        assert (raw + [chunk])[..|raw|] == raw;
        raw := raw + [chunk];
        var chunks := Split(pending + chunk, NEWLINE);
        assert taken + [] == taken;
        pending := chunks[|chunks| - 1];
        lines := lines + chunks[..|chunks| - 1];
        assert [] + chunks[..|chunks| - 1] == chunks[..|chunks| - 1];
      }
      failure := None;
    }

    /** An event is the next complete line; what already waits is handed over before more is read. */
    method Event() returns (r: Result<KernelEvent>)
      requires Valid()
      modifies this`raw, this`pending, this`lines, this`bytes, this`taken
      ensures Valid()
      ensures |raw| >= |old(raw)| && raw[..|old(raw)|] == old(raw) && bytes >= old(bytes)
      ensures r.Ok? || r == Err(Invalid) ==> |taken| == |old(taken)| + 1 && old(taken) == taken[..|old(taken)|]
      ensures r.Ok? ==> parse(taken[|old(taken)|]) == Some(r.value)
      ensures r == Err(Invalid) ==> parse(taken[|old(taken)|]) == None
      ensures r.Err? && r.failure != Invalid ==> taken == old(taken) && NothingWaits(r.failure)
      ensures old(lines) != [] ==> raw == old(raw)
    {
      var failure := Fill();
      if failure.Some? {
        return Err(failure.value);
      }
      var line := lines[0];
      assert taken + lines == (taken + [line]) + lines[1..];
      lines, taken := lines[1..], taken + [line];
      match parse(line) {
        case None => return Err(Invalid);
        case Some(event) => return Ok(event);
      }
    }

    /** Partial writes are continued until everything is written; a write that makes no progress fails. */
    method Send(request: seq<byte>) returns (r: Result<()>)
      requires NEWLINE !in request
      modifies this`input, this`sent
      ensures r.Ok? ==> input == old(input) + request + [NEWLINE] && sent == old(sent) + [request]
                        && (old(InputIntact()) ==> InputIntact())
      ensures r.Err? ==> r.failure == WriteFailed && sent == old(sent)
                         && exists n | 0 <= n <= |request| :: input == old(input) + request[..n]
    {
      var data := request + [NEWLINE];
      ghost var whole, n := data, 0;
      assert whole[n..] == whole && input + whole[..n] == input;
      while data != []
        invariant sent == old(sent)
        invariant n <= |whole| && data == whole[n..] && input == old(input) + whole[..n]
        decreases |data|
      {
        var written: nat :| written <= |data|;
        OneMoreWrite(old(input), whole, n, written);
        input := input + data[..written];
        if written == 0 {
          assert whole[..n] == request[..n];
          return Err(WriteFailed);
        }
        data, n := data[written..], n + written;
      }
      assert whole[..n] == whole && input == old(input) + request + [NEWLINE];
      OneMoreRequest(old(sent), request);
      sent := sent + [request];
      return Ok(());
    }

    /** Reads events up to and including the one that finishes the request. */
    method Done(id: string, interrupted: bool) returns (r: Result<seq<KernelEvent>>, ghost events: seq<KernelEvent>)
      requires Valid()
      modifies this`raw, this`pending, this`lines, this`bytes, this`taken
      ensures Valid() && |taken| >= |old(taken)| && taken[..|old(taken)|] == old(taken)
      ensures r.Ok? ==>
                && |taken| == |old(taken)| + |r.value| && Took(|old(taken)|, r.value)
                && EndsWith(r.value, id) && WantedEnd(r.value, id, interrupted)
      ensures r.Err? ==> GivesUp(r.failure, |old(taken)|, events, id, interrupted)
    {
      hide WantedEnd, Valid;
      var read: seq<KernelEvent> := [];
      events := [];
      while true
        invariant Valid() && |taken| == |old(taken)| + |read| && taken[..|old(taken)|] == old(taken)
        invariant Took(|old(taken)|, read) && (forall e <- read :: !Finishes(e, id)) && events == read
        decreases LIMIT + 1 - |taken|
      {
        ghost var before := taken;
        var got := Event();
        TakenIsBounded();
        assert forall i | 0 <= i < |before| :: taken[i] == taken[..|before|][i];
        if got.Err? {
          return Err(got.failure), events;
        }
        read := read + [got.value];
        events := read;
        if got.value.kind == "done" && got.value.id == id {
          if !WantedEnd(read, id, interrupted) {
            return Err(if interrupted then NotAcknowledged else RequestFailed), events;
          }
          return Ok(read), events;
        }
      }
    }

    lemma TakenIsBounded()
      requires Valid()
      ensures |taken| <= LIMIT
    {
      SplitLength(Flat(raw), NEWLINE);
    }
  }

  lemma OneMoreWrite<T>(before: seq<T>, whole: seq<T>, n: nat, written: nat)
    requires n + written <= |whole|
    ensures (before + whole[..n]) + whole[n..][..written] == before + whole[..n + written]
    ensures whole[n..][written..] == whole[n + written..]
  {}

  lemma {:induction false} OneMoreRequest(sent: seq<seq<byte>>, request: seq<byte>)
    ensures Join(sent + [request] + [[]], NEWLINE) == Join(sent + [[]], NEWLINE) + request + [NEWLINE]
  {
    if sent == [] {
      assert sent + [request] + [[]] == [request, []] && sent + [[]] == [[]];
      assert [request, []][1..] == [[]];
    } else {
      OneMoreRequest(sent[1..], request);
      var longer, shorter := sent + [request] + [[]], sent + [[]];
      assert longer[1..] == sent[1..] + [request] + [[]] && shorter[1..] == sent[1..] + [[]];
      var a, b := sent[0] + [NEWLINE], Join(sent[1..] + [[]], NEWLINE);
      assert a + (b + request + [NEWLINE]) == (a + b) + request + [NEWLINE];
    }
  }

  /** A process that cuts its input at every newline gets back exactly the requests that were sent. */
  lemma RequestsArriveWhole(k: Kernel)
    requires k.InputIntact() && Clean(k.sent, NEWLINE)
    ensures Lines(k.input, NEWLINE) == k.sent && Unfinished(k.input, NEWLINE) == []
  {
    SplitOfJoin(k.sent + [[]], NEWLINE);
    assert (k.sent + [[]])[..|k.sent|] == k.sent;
  }

  /** Two clients that read the same output in different pieces take the same lines, as far as each has got. */
  lemma PiecesDoNotMatter(a: Kernel, b: Kernel)
    requires a.Valid() && b.Valid() && Flat(a.raw) == Flat(b.raw) && |a.taken| <= |b.taken|
    ensures a.taken == b.taken[..|a.taken|] && a.taken + a.lines == b.taken + b.lines && a.pending == b.pending
  {
    assert a.taken == (a.taken + a.lines)[..|a.taken|];
    assert b.taken[..|a.taken|] == (b.taken + b.lines)[..|a.taken|];
  }
}
