/** Restoring the sessions of an update manifest on the replacement daemon. Every request may be refused or fail. */
module Restore {
  import opened Wrappers

  datatype SessionKind = TopLevel | Subagent

  datatype RuntimeMetadata = RuntimeMetadata(kind: SessionKind, parentActiveSessionId: Option<string>, rest: string)

  datatype ActionKind = TurnAction | SessionCommand

  datatype Action = Action(kind: ActionKind, queueVisible: bool, acceptedBeforeCompletion: bool)

  datatype Session = Session(
    activeSessionId: string, sessionFile: string, runtimeMetadata: Option<RuntimeMetadata>,
    nextTurn: seq<string>, actions: seq<Action>, shouldResume: bool,
    wasStreaming: bool, wasCompacting: bool, wasBashRunning: bool,
    hadRunningRlmChildren: bool, wasRetrying: bool, hadAcceptedPromptInFlight: bool)

  datatype Request =
    | Create(metadata: Option<RuntimeMetadata>)
    | AppendNotice
    | RestoreNextTurn
    | RestoreActions
    | ContinuationPrompt
    | ResumeQueue

  /** How a request went: accepted (a create says under which new id), answered with an error, or thrown out of. */
  datatype Response = Accepted(newId: string) | Refused | Failed

  datatype Exchange = Exchange(session: nat, request: Request, response: Response)

  datatype SessionResult = SessionResult(restored: bool, resumed: bool) | SessionThrew

  datatype Counts = Counts(total: nat, restored: nat, resumed: nat, failed: nat)

  /** A subagent is attached to its parent's new id, if the parent came back, and to no parent otherwise. */
  function RemapRuntimeMetadata(session: Session, restoredIds: map<string, string>): Option<RuntimeMetadata> {
    if session.runtimeMetadata.None? then None
    else
      var metadata := session.runtimeMetadata.value;
      if metadata.kind != Subagent then Some(metadata)
      else
        var oldParent := metadata.parentActiveSessionId;
        var parent := if oldParent.Some? && oldParent.value != "" && oldParent.value in restoredIds
                    then restoredIds[oldParent.value] else "";
        Some(metadata.(parentActiveSessionId := if parent != "" then Some(parent) else None))
  }

  predicate NeedsContinuationPrompt(s: Session) {
    s.wasStreaming || s.wasCompacting || s.wasBashRunning
    || s.hadRunningRlmChildren || s.wasRetrying || s.hadAcceptedPromptInFlight
  }

  /** The queue holds a turn the user never saw queued and that counted as accepted. */
  predicate HoldsAcceptedTurn(s: Session) {
    exists a <- s.actions :: a.kind == TurnAction && !a.queueVisible && a.acceptedBeforeCompletion
  }

  // ---------------------------------------------------------------- what was said to the daemon

  predicate AcceptedIn(log: seq<Exchange>, k: nat, request: Request) {
    exists i | 0 <= i < |log| :: log[i].session == k && log[i].request == request && log[i].response.Accepted?
  }

  predicate SentIn(log: seq<Exchange>, k: nat, request: Request) {
    exists i | 0 <= i < |log| :: log[i].session == k && log[i].request == request
  }

  /** Requests about one session come in this order, each at most once. */
  function Rank(request: Request): nat {
    match request
    case Create(_) => 0
    case AppendNotice => 1
    case RestoreNextTurn => 2
    case RestoreActions => 3
    case ContinuationPrompt => 4
    case ResumeQueue => 5
  }

  /** A request that is thrown out of ends the conversation, unless it was the update notice. */
  predicate Breaks(e: Exchange) {
    e.response.Failed? && !e.request.AppendNotice?
  }

  ghost predicate WellOrdered(k: nat, said: seq<Exchange>) {
    && (forall i | 0 <= i < |said| :: said[i].session == k)
    && (forall i, j | 0 <= i < j < |said| :: Rank(said[i].request) < Rank(said[j].request))
    && (forall i | 0 <= i < |said| - 1 :: !Breaks(said[i]))
  }

  /** A conversation that may go on with a request of rank `level` or more. */
  ghost predicate Underway(k: nat, said: seq<Exchange>, level: nat) {
    && WellOrdered(k, said) && (said != [] ==> !Breaks(said[|said| - 1]))
    && forall i | 0 <= i < |said| :: Rank(said[i].request) < level
  }

  /** How each request was answered. */
  function Answers(said: seq<Exchange>): map<Request, Response> {
    if said == [] then map[]
    else
      var e := said[|said| - 1];
      Answers(said[..|said| - 1])[e.request := e.response]
  }

  predicate Got(answers: map<Request, Response>, request: Request) {
    request in answers && answers[request].Accepted?
  }

  /**
   * Who hears what: the session that asked for the update is told of it; pending context and queued actions
   * go back where there are any; a continuation prompt goes out exactly when one is due and no accepted turn
   * was restored; the queue is resumed exactly when it was restored and no prompt was accepted.
   */
  predicate Exchanged(s: Session, origin: Option<string>, created: bool, a: map<Request, Response>, r: SessionResult) {
    && (AppendNotice in a <==> created && Some(s.activeSessionId) == origin)
    && (RestoreNextTurn in a <==> created && s.nextTurn != [])
    && (RestoreActions in a ==> s.shouldResume && s.actions != [])
    && (ContinuationPrompt in a ==>
          s.shouldResume && NeedsContinuationPrompt(s) && !(HoldsAcceptedTurn(s) && Got(a, RestoreActions)))
    && (ResumeQueue in a ==> Got(a, RestoreActions) && !Got(a, ContinuationPrompt))
    && (r.SessionResult? ==>
          && (r.restored <==> created)
          && (r.resumed <==> Got(a, ContinuationPrompt) || Got(a, ResumeQueue))
          && (created && s.shouldResume ==>
                && (s.actions != [] ==> RestoreActions in a)
                && (NeedsContinuationPrompt(s) && !(HoldsAcceptedTurn(s) && Got(a, RestoreActions)) ==>
                      ContinuationPrompt in a)
                && (Got(a, RestoreActions) && !Got(a, ContinuationPrompt) ==> ResumeQueue in a)))
  }

  /**
   * The whole conversation about one session. It is created first, under the metadata that the ids known so
   * far lead to, and only a created session hears more. A session throws exactly if the last request did.
   */
  ghost predicate Conversation(k: nat, s: Session, origin: Option<string>, restoredIds: map<string, string>,
                               said: seq<Exchange>, r: SessionResult)
  {
    && said != [] && WellOrdered(k, said)
    && said[0].request == Create(RemapRuntimeMetadata(s, restoredIds))
    && (|said| > 1 ==> said[0].response.Accepted?)
    && (r.SessionThrew? <==> Breaks(said[|said| - 1]))
    && Exchanged(s, origin, said[0].response.Accepted?, Answers(said), r)
  }

  /** The session has been created and nothing about its work has been said yet. */
  ghost predicate Introduced(k: nat, s: Session, origin: Option<string>, restoredIds: map<string, string>,
                             said: seq<Exchange>)
  {
    && said != [] && Underway(k, said, 3)
    && said[0].request == Create(RemapRuntimeMetadata(s, restoredIds)) && said[0].response.Accepted?
    && var a := Answers(said);
    && (AppendNotice in a <==> Some(s.activeSessionId) == origin)
    && (RestoreNextTurn in a <==> s.nextTurn != [])
    && RestoreActions !in a && ContinuationPrompt !in a && ResumeQueue !in a
  }

  /**
   * What becomes of a session's metadata: nothing, unless it is a subagent; that one names the new id of its
   * own old parent exactly if it had one, that one was restored before, and under an id that is not empty.
   */
  lemma RemapExactly(s: Session, restoredIds: map<string, string>)
    requires s.runtimeMetadata.Some?
    ensures var before, after := s.runtimeMetadata.value, RemapRuntimeMetadata(s, restoredIds);
            && after.Some? && after.value.kind == before.kind && after.value.rest == before.rest
            && (before.kind != Subagent ==> after.value == before)
            && (before.kind == Subagent ==>
                  forall parent ::
                    after.value.parentActiveSessionId == Some(parent) <==>
                      && parent != "" && before.parentActiveSessionId.Some? && before.parentActiveSessionId.value != ""
                      && before.parentActiveSessionId.value in restoredIds
                      && restoredIds[before.parentActiveSessionId.value] == parent)
  {}

  /** A session that should go on, was in the middle of something, and has nothing queued, is prompted to go on. */
  lemma InterruptedSessionIsPrompted(k: nat, s: Session, origin: Option<string>, restoredIds: map<string, string>,
                                     said: seq<Exchange>, r: SessionResult)
    requires Conversation(k, s, origin, restoredIds, said, r) && r.SessionResult? && said[0].response.Accepted?
    requires s.shouldResume && s.actions == []
    requires s.wasStreaming || s.wasCompacting || s.wasBashRunning || s.hadRunningRlmChildren || s.wasRetrying
             || s.hadAcceptedPromptInFlight
    ensures SentIn(said, k, ContinuationPrompt)
  {
    hide SentIn, AcceptedIn, Answers, WellOrdered;
    AnswersTell(k, said, ContinuationPrompt);
  }

  /** One that was in the middle of nothing, or should not go on, is not. */
  lemma QuietSessionIsNotPrompted(k: nat, s: Session, origin: Option<string>, restoredIds: map<string, string>,
                                  said: seq<Exchange>, r: SessionResult)
    requires Conversation(k, s, origin, restoredIds, said, r)
    requires !s.shouldResume
             || !(s.wasStreaming || s.wasCompacting || s.wasBashRunning || s.hadRunningRlmChildren || s.wasRetrying
                  || s.hadAcceptedPromptInFlight)
    ensures !SentIn(said, k, ContinuationPrompt)
  {
    hide SentIn, AcceptedIn, Answers, WellOrdered;
    AnswersTell(k, said, ContinuationPrompt);
  }

  /**
   * With its queue restored, a session is prompted exactly if the queue holds no accepted turn hidden from the
   * user.
   */
  lemma AcceptedTurnReplacesPrompt(k: nat, s: Session, origin: Option<string>, restoredIds: map<string, string>,
                                   said: seq<Exchange>, r: SessionResult)
    requires Conversation(k, s, origin, restoredIds, said, r) && r.SessionResult? && said[0].response.Accepted?
    requires s.shouldResume && AcceptedIn(said, k, RestoreActions) && s.wasStreaming
    ensures SentIn(said, k, ContinuationPrompt) <==>
              forall a <- s.actions :: a.kind == SessionCommand || a.queueVisible || !a.acceptedBeforeCompletion
  {
    hide SentIn, AcceptedIn, Answers, WellOrdered;
    AnswersTell(k, said, ContinuationPrompt);
    AnswersTell(k, said, RestoreActions);
  }

  lemma NextExchange(k: nat, said: seq<Exchange>, e: Exchange, level: nat)
    requires Underway(k, said, level) && level <= Rank(e.request) && e.session == k
    ensures WellOrdered(k, said + [e]) && (!Breaks(e) ==> Underway(k, said + [e], Rank(e.request) + 1))
    ensures Answers(said + [e]) == Answers(said)[e.request := e.response]
  {
    assert (said + [e])[..|said|] == said;
  }

  lemma UnderwayStops(k: nat, said: seq<Exchange>, level: nat)
    requires Underway(k, said, level)
    ensures WellOrdered(k, said) && (said != [] ==> !Breaks(said[|said| - 1]))
  {}

  lemma StillUnderway(k: nat, said: seq<Exchange>, level: nat, higher: nat)
    requires Underway(k, said, level) && level <= higher
    ensures Underway(k, said, higher)
  {}

  lemma NothingSaid(k: nat)
    ensures Underway(k, [], 0) && Answers([]) == map[]
  {}

  lemma NothingSent(k: nat, request: Request)
    ensures !SentIn([], k, request) && !AcceptedIn([], k, request)
  {}

  lemma EarlierDiffer(k: nat, said: seq<Exchange>, e: Exchange)
    requires WellOrdered(k, said + [e])
    ensures WellOrdered(k, said) && e.session == k && !SentIn(said, k, e.request) && !AcceptedIn(said, k, e.request)
  {
    assert forall i | 0 <= i < |said| :: (said + [e])[i] == said[i];
    assert (said + [e])[|said|] == e;
  }

  /** Read off the log, a request was sent, and accepted, exactly if the answers say so. */
  lemma {:induction false} AnswersTell(k: nat, said: seq<Exchange>, request: Request)
    requires WellOrdered(k, said)
    ensures request in Answers(said) <==> SentIn(said, k, request)
    ensures Got(Answers(said), request) <==> AcceptedIn(said, k, request)
  {
    hide WellOrdered, SentIn, AcceptedIn;
    if said == [] {
      NothingSent(k, request);
    } else {
      var before, e := said[..|said| - 1], said[|said| - 1];
      assert said == before + [e];
      EarlierDiffer(k, before, e);
      AnswersTell(k, before, request);
      OneMore(before, e, k, request);
    }
  }

  /** A create request for a subagent names no parent, or the new id of its own old parent, created before it. */
  ghost predicate Wired(sessions: seq<Session>, log: seq<Exchange>, i: nat)
    requires i < |log|
  {
    log[i].request.Create? && log[i].request.metadata.Some? && log[i].request.metadata.value.kind == Subagent ==>
      var parent := log[i].request.metadata.value.parentActiveSessionId;
      parent.Some? ==>
        exists j | 0 <= j < i :: CreatedAs(sessions, log[i].session, log[j], parent.value)
  }

  /** The exchange created, under the given new id, the session that the k-th session calls its parent. */
  predicate CreatedAs(sessions: seq<Session>, k: nat, e: Exchange, newId: string) {
    && e.request.Create? && e.response == Accepted(newId)
    && k < |sessions| && e.session < |sessions|
    && sessions[k].runtimeMetadata.Some?
    && sessions[k].runtimeMetadata.value.parentActiveSessionId == Some(sessions[e.session].activeSessionId)
  }

  /**
   * Over the whole log: a session that holds an accepted turn which was restored gets no continuation
   * prompt, and a queue is resumed only after it was restored and no prompt was accepted.
   */
  ghost predicate Orderly(sessions: seq<Session>, log: seq<Exchange>, k: nat)
    requires k < |sessions|
  {
    && (SentIn(log, k, ContinuationPrompt) ==>
          sessions[k].shouldResume && NeedsContinuationPrompt(sessions[k])
          && !(HoldsAcceptedTurn(sessions[k]) && AcceptedIn(log, k, RestoreActions)))
    && (SentIn(log, k, ResumeQueue) ==>
          AcceptedIn(log, k, RestoreActions) && !AcceptedIn(log, k, ContinuationPrompt))
  }

  /** Every known new id was handed out by a create for that session. */
  ghost predicate IdsCreated(sessions: seq<Session>, log: seq<Exchange>, restoredIds: map<string, string>) {
    forall id <- restoredIds ::
      exists j | 0 <= j < |log| ::
        && log[j].request.Create? && log[j].response == Accepted(restoredIds[id])
        && log[j].session < |sessions| && sessions[log[j].session].activeSessionId == id
  }

  lemma OneMore(log: seq<Exchange>, e: Exchange, k: nat, request: Request)
    ensures SentIn(log + [e], k, request) == (SentIn(log, k, request) || (e.session == k && e.request == request))
    ensures AcceptedIn(log + [e], k, request)
         == (AcceptedIn(log, k, request) || (e.session == k && e.request == request && e.response.Accepted?))
  {
    var longer := log + [e];
    if e.session == k && e.request == request {
      assert longer[|log|] == e;
    }
    forall i | 0 <= i < |log| ensures longer[i] == log[i] {}
  }

  class Restorer {
    var restoredActiveSessionIds: map<string, string>
    /** Everything asked of the daemon and how it went. */
    ghost var log: seq<Exchange>

    constructor ()
      ensures log == [] && restoredActiveSessionIds == map[]
    {
      restoredActiveSessionIds := map[];
      log := [];
    }

    /** One more request in a conversation that follows `before` in the log. */
    method Ask(k: nat, request: Request, ghost before: seq<Exchange>, ghost said: seq<Exchange>, ghost level: nat)
      returns (response: Response, ghost longer: seq<Exchange>)
      requires Underway(k, said, level) && level <= Rank(request) && log == before + said
      modifies this`log
      ensures var e := Exchange(k, request, response);
              && longer != [] && longer[0] == (if said == [] then e else said[0]) && longer[|longer| - 1] == e
              && |longer| == |said| + 1 && log == before + longer
              && WellOrdered(k, longer) && (!Breaks(e) ==> Underway(k, longer, Rank(request) + 1))
              && Answers(longer) == Answers(said)[request := response]
    {
      hide Underway, WellOrdered, Answers;
      response :| true;
      longer := said + [Exchange(k, request, response)];
      log := log + [Exchange(k, request, response)];
      NextExchange(k, said, Exchange(k, request, response), level);
    }

    /** The create request, the update notice for the session that asked for it, and its pending context. */
    method IntroduceSession(k: nat, session: Session, origin: Option<string>)
      returns (r: Option<SessionResult>, ghost said: seq<Exchange>)
      modifies this
      ensures log == old(log) + said && said != []
      ensures r.Some? ==> Conversation(k, session, origin, old(restoredActiveSessionIds), said, r.value)
      ensures r.None? ==> Introduced(k, session, origin, old(restoredActiveSessionIds), said) && session.shouldResume
      ensures restoredActiveSessionIds ==
              if said[0].response.Accepted?
              then old(restoredActiveSessionIds)[session.activeSessionId := said[0].response.newId]
              else old(restoredActiveSessionIds)
    {
      hide Underway, WellOrdered, Answers, HoldsAcceptedTurn, NeedsContinuationPrompt, RemapRuntimeMetadata;
      ghost var before := log;
      said := [];
      NothingSaid(k);
      var runtimeMetadata := RemapRuntimeMetadata(session, restoredActiveSessionIds);
      var created;
      created, said := Ask(k, Create(runtimeMetadata), before, said, 0);
      if !created.Accepted? {
        r := Some(if created.Refused? then SessionResult(false, false) else SessionThrew);
        return;
      }
      restoredActiveSessionIds := restoredActiveSessionIds[session.activeSessionId := created.newId];
      ghost var level := 1;
      if Some(session.activeSessionId) == origin {
        var notice;
        notice, said := Ask(k, AppendNotice, before, said, level);
        level := 2;
      }
      if |session.nextTurn| > 0 {
        var pendingContext;
        pendingContext, said := Ask(k, RestoreNextTurn, before, said, level);
        if pendingContext.Failed? {
          r := Some(SessionThrew);
          return;
        }
        level := 3;
      }
      UnderwayStops(k, said, level);
      StillUnderway(k, said, level, 3);
      r := if session.shouldResume then None else Some(SessionResult(true, false));
    }

    /** Queued actions, then the continuation prompt, then the queue. */
    method ResumeWork(k: nat, session: Session, ghost origin: Option<string>, ghost ids: map<string, string>,
                      ghost before: seq<Exchange>, ghost introduction: seq<Exchange>)
      returns (r: SessionResult, ghost said: seq<Exchange>)
      requires session.shouldResume && Introduced(k, session, origin, ids, introduction)
      requires log == before + introduction
      modifies this`log
      ensures log == before + said && said != [] && said[0] == introduction[0]
      ensures Conversation(k, session, origin, ids, said, r)
    {
      hide Underway, WellOrdered, Answers, HoldsAcceptedTurn, NeedsContinuationPrompt, RemapRuntimeMetadata;
      said := introduction;
      ghost var level := 3;
      var resumedSession, restoredQueuedWork := false, false;
      if |session.actions| > 0 {
        var actions;
        actions, said := Ask(k, RestoreActions, before, said, level);
        if actions.Failed? {
          r := SessionThrew;
          return;
        }
        level := 4;
        restoredQueuedWork := actions.Accepted?;
      }
      var restoredAcceptedTurn := restoredQueuedWork && HoldsAcceptedTurn(session);
      if NeedsContinuationPrompt(session) && !restoredAcceptedTurn {
        var prompt;
        prompt, said := Ask(k, ContinuationPrompt, before, said, level);
        if prompt.Failed? {
          r := SessionThrew;
          return;
        }
        level := 5;
        resumedSession := prompt.Accepted?;
      }
      if !resumedSession && restoredQueuedWork {
        var resume;
        resume, said := Ask(k, ResumeQueue, before, said, level);
        if resume.Failed? {
          r := SessionThrew;
          return;
        }
        level := 6;
        resumedSession := resume.Accepted?;
      }
      UnderwayStops(k, said, level);
      r := SessionResult(true, resumedSession);
    }

    /** `restoreDaemonUpdateRestartSession`. */
    method RestoreSession(k: nat, session: Session, origin: Option<string>)
      returns (r: SessionResult, ghost said: seq<Exchange>)
      modifies this
      ensures log == old(log) + said
      ensures Conversation(k, session, origin, old(restoredActiveSessionIds), said, r)
      ensures said != [] && restoredActiveSessionIds ==
              if said[0].response.Accepted?
              then old(restoredActiveSessionIds)[session.activeSessionId := said[0].response.newId]
              else old(restoredActiveSessionIds)
    {
      hide HoldsAcceptedTurn, NeedsContinuationPrompt, RemapRuntimeMetadata, Introduced, Conversation;
      var early;
      early, said := IntroduceSession(k, session, origin);
      if early.Some? {
        r := early.value;
      } else {
        r, said := ResumeWork(k, session, origin, old(restoredActiveSessionIds), old(log), said);
      }
    }

    /**
     * `restoreDaemonUpdateRestart` over one manifest: session by session, each is restored or recorded as
     * a failure, never both, and every subagent is wired to its own parent's new session or to none.
     * The loop does not complete when the connection, or the progress report after a session, fails.
     */
    method RestoreAll(sessions: seq<Session>, origin: Option<string>)
      returns (completed: bool, counts: Counts, failures: seq<string>, ghost talks: seq<Talk>)
      requires log == [] && restoredActiveSessionIds == map[]
      modifies this
      ensures sessions == [] ==> completed
      ensures log == Said(talks) && |talks| <= |sessions| && HeldTalks(sessions, origin, talks)
      ensures completed ==>
                && |talks| == |sessions| && failures == FailuresOf(sessions, talks)
                && counts == Counts(|sessions|, RestoredIn(talks), ResumedIn(talks), |failures|)
                && Completes(sessions, origin, talks, counts)
                && counts.restored + counts.failed == counts.total && counts.resumed <= counts.restored
      ensures forall i | 0 <= i < |log| :: Wired(sessions, log, i)
      ensures forall k | 0 <= k < |sessions| :: Orderly(sessions, log, k)
    {
      hide Conversation, Orderly, Wired, IdsCreated, RestoredIn, ResumedIn, FailuresOf, Said, IdsAfter;
      NothingDisorderly(sessions);
      completed, counts, failures, talks := true, Counts(0, 0, 0, 0), [], [];
      NothingTalked(sessions);
      if |sessions| == 0 {
        return;
      }
      var connected: bool :| true;
      if !connected {
        completed := false;
        return;
      }
      var restored: nat, resumed: nat := 0, 0;
      for k := 0 to |sessions|
        invariant completed && |talks| == k && log == Said(talks) && HeldTalks(sessions, origin, talks)
        invariant restoredActiveSessionIds == IdsAfter(sessions, talks)
        invariant restored == RestoredIn(talks) && resumed == ResumedIn(talks)
        invariant failures == FailuresOf(sessions, talks)
        invariant restored + |failures| == k && resumed <= restored
        invariant IdsCreated(sessions, log, restoredActiveSessionIds)
        invariant forall i | 0 <= i < |log| :: Wired(sessions, log, i)
        invariant forall i | 0 <= i < |log| :: log[i].session < k
        invariant forall j | 0 <= j < |sessions| :: Orderly(sessions, log, j)
      {
        ghost var before, ids := log, restoredActiveSessionIds;
        var result;
        ghost var said;
        result, said := RestoreSession(k, sessions[k], origin);
        StaysWired(sessions, before, k, said, origin, ids, result);
        StaysOrderly(sessions, before, k, said, origin, ids, result);
        OneMoreTalk(sessions, talks, Talk(ids, said, result));
        talks := talks + [Talk(ids, said, result)];
        if result.SessionResult? && result.restored {
          restored := restored + 1;
        }
        if result.SessionResult? && result.resumed {
          resumed := resumed + 1;
          ResumedIsRestored(k, sessions[k], origin, ids, said, result);
        }
        if result.SessionThrew? || !result.restored {
          failures := failures + [sessions[k].sessionFile];
        }
        var progressReported: bool :| true;
        if !progressReported {
          completed := false;
          return;
        }
      }
      counts := Counts(|sessions|, restored, resumed, |sessions| - restored);
    }
  }

  // ---------------------------------------------------------------- a whole manifest

  /** What was said about one session, under the new ids known when it was its turn, and what came of it. */
  datatype Talk = Talk(ids: map<string, string>, said: seq<Exchange>, result: SessionResult)

  /** Each session was talked about in its turn, under all the new ids that were handed out before. */
  ghost predicate HeldTalks(sessions: seq<Session>, origin: Option<string>, talks: seq<Talk>)
    requires |talks| <= |sessions|
  {
    forall k | 0 <= k < |talks| ::
      && Conversation(k, sessions[k], origin, talks[k].ids, talks[k].said, talks[k].result)
      && talks[k].ids == IdsAfter(sessions, talks[..k])
  }

  predicate Created(t: Talk) {
    t.said != [] && t.said[0].response.Accepted?
  }

  /** The new ids by the old ones, the latest for each. */
  function IdsAfter(sessions: seq<Session>, talks: seq<Talk>): map<string, string>
    requires |talks| <= |sessions|
  {
    if talks == [] then map[]
    else
      var last := |talks| - 1;
      var ids, t := IdsAfter(sessions, talks[..last]), talks[last];
      if Created(t) then ids[sessions[last].activeSessionId := t.said[0].response.newId] else ids
  }

  /** A loop over a manifest went all the way, and this is what it counted. */
  ghost predicate Completes(sessions: seq<Session>, origin: Option<string>, talks: seq<Talk>, counts: Counts) {
    && |talks| == |sessions| && HeldTalks(sessions, origin, talks)
    && counts == Counts(|sessions|, RestoredIn(talks), ResumedIn(talks), |FailuresOf(sessions, talks)|)
  }

  /** The j-th session is the last one created of those with this old id. */
  predicate LastCreated(sessions: seq<Session>, talks: seq<Talk>, j: nat, id: string)
    requires |talks| <= |sessions|
  {
    && j < |talks| && sessions[j].activeSessionId == id && Created(talks[j])
    && forall i | j < i < |talks| && sessions[i].activeSessionId == id :: !Created(talks[i])
  }

  /** An old id is known exactly if a session with it was created, and under what the last of those got. */
  lemma {:induction false} KnownExactly(sessions: seq<Session>, talks: seq<Talk>, id: string)
    requires |talks| <= |sessions|
    ensures forall j: nat | LastCreated(sessions, talks, j, id) ::
              id in IdsAfter(sessions, talks) && IdsAfter(sessions, talks)[id] == talks[j].said[0].response.newId
    ensures id in IdsAfter(sessions, talks) ==> exists j: nat :: LastCreated(sessions, talks, j, id)
  {
    if talks != [] {
      var last := |talks| - 1;
      KnownExactly(sessions, talks[..last], id);
      if sessions[last].activeSessionId == id && Created(talks[last]) {
        assert LastCreated(sessions, talks, last, id);
      } else {
        assert forall j: nat :: LastCreated(sessions, talks, j, id) <==> LastCreated(sessions, talks[..last], j, id);
      }
    }
  }

  /**
   * A subagent whose parent was created before it is created under the parent's new id, the one handed out
   * last for the parent's old id, if neither is empty.
   */
  lemma CreatedParentIsNamed(sessions: seq<Session>, origin: Option<string>, talks: seq<Talk>, j: nat, k: nat)
    requires |talks| <= |sessions| && HeldTalks(sessions, origin, talks) && k < |talks|
    requires sessions[k].runtimeMetadata.Some? && sessions[k].runtimeMetadata.value.kind == Subagent
    requires var parent := sessions[k].runtimeMetadata.value.parentActiveSessionId;
             parent.Some? && parent.value != "" && LastCreated(sessions, talks[..k], j, parent.value)
    requires talks[j].said[0].response.newId != ""
    ensures talks[k].said != [] && talks[k].said[0].request.Create?
    ensures talks[k].said[0].request.metadata ==
            Some(sessions[k].runtimeMetadata.value.(parentActiveSessionId := Some(talks[j].said[0].response.newId)))
  {
    KnownExactly(sessions, talks[..k], sessions[k].runtimeMetadata.value.parentActiveSessionId.value);
  }

  /** A subagent whose parent was not created before it names no parent. */
  lemma OrphanNamesNoParent(sessions: seq<Session>, origin: Option<string>, talks: seq<Talk>, k: nat)
    requires |talks| <= |sessions| && HeldTalks(sessions, origin, talks) && k < |talks|
    requires sessions[k].runtimeMetadata.Some? && sessions[k].runtimeMetadata.value.kind == Subagent
    requires forall j | 0 <= j < k && Created(talks[j]) ::
               Some(sessions[j].activeSessionId) != sessions[k].runtimeMetadata.value.parentActiveSessionId
    ensures talks[k].said != [] && talks[k].said[0].request.Create?
    ensures talks[k].said[0].request.metadata == Some(sessions[k].runtimeMetadata.value.(parentActiveSessionId := None))
  {
    var parent := sessions[k].runtimeMetadata.value.parentActiveSessionId;
    if parent.Some? {
      KnownExactly(sessions, talks[..k], parent.value);
    }
  }

  function Said(talks: seq<Talk>): seq<Exchange> {
    if talks == [] then [] else Said(talks[..|talks| - 1]) + talks[|talks| - 1].said
  }

  predicate WasRestored(t: Talk) {
    t.result.SessionResult? && t.result.restored
  }

  function RestoredIn(talks: seq<Talk>): nat {
    if talks == [] then 0
    else RestoredIn(talks[..|talks| - 1]) + if WasRestored(talks[|talks| - 1]) then 1 else 0
  }

  function ResumedIn(talks: seq<Talk>): nat {
    if talks == [] then 0
    else
      var r := talks[|talks| - 1].result;
      ResumedIn(talks[..|talks| - 1]) + if r.SessionResult? && r.resumed then 1 else 0
  }

  /** The files of the sessions that were not restored, in their order. */
  function FailuresOf(sessions: seq<Session>, talks: seq<Talk>): seq<string>
    requires |talks| <= |sessions|
  {
    if talks == [] then []
    else
      var last := |talks| - 1;
      FailuresOf(sessions, talks[..last]) + if WasRestored(talks[last]) then [] else [sessions[last].sessionFile]
  }

  lemma NothingTalked(sessions: seq<Session>)
    ensures Said([]) == [] && RestoredIn([]) == 0 && ResumedIn([]) == 0 && FailuresOf(sessions, []) == []
    ensures IdsAfter(sessions, []) == map[]
  {}

  lemma OneMoreTalk(sessions: seq<Session>, talks: seq<Talk>, t: Talk)
    requires |talks| < |sessions|
    ensures Said(talks + [t]) == Said(talks) + t.said
    ensures RestoredIn(talks + [t]) == RestoredIn(talks) + if WasRestored(t) then 1 else 0
    ensures ResumedIn(talks + [t]) == ResumedIn(talks) + if t.result.SessionResult? && t.result.resumed then 1 else 0
    ensures FailuresOf(sessions, talks + [t]) ==
            FailuresOf(sessions, talks) + if WasRestored(t) then [] else [sessions[|talks|].sessionFile]
    ensures IdsAfter(sessions, talks + [t]) ==
            if Created(t) then IdsAfter(sessions, talks)[sessions[|talks|].activeSessionId := t.said[0].response.newId]
            else IdsAfter(sessions, talks)
    ensures forall k | 0 <= k < |talks| :: (talks + [t])[..k] == talks[..k]
  {
    assert (talks + [t])[..|talks|] == talks;
  }

  lemma NothingDisorderly(sessions: seq<Session>)
    ensures IdsCreated(sessions, [], map[])
    ensures forall k | 0 <= k < |sessions| :: Orderly(sessions, [], k)
  {}

  lemma Joined(log: seq<Exchange>, said: seq<Exchange>, k: nat, request: Request)
    ensures SentIn(log + said, k, request) <==> SentIn(log, k, request) || SentIn(said, k, request)
    ensures AcceptedIn(log + said, k, request) <==> AcceptedIn(log, k, request) || AcceptedIn(said, k, request)
  {
    assert forall i | 0 <= i < |log| :: (log + said)[i] == log[i];
    assert forall i | 0 <= i < |said| :: (log + said)[|log| + i] == said[i];
  }

  lemma StaysOrderly(sessions: seq<Session>, log: seq<Exchange>, k: nat, said: seq<Exchange>,
                     origin: Option<string>, restoredIds: map<string, string>, r: SessionResult)
    requires k < |sessions| && Conversation(k, sessions[k], origin, restoredIds, said, r)
    requires forall i | 0 <= i < |log| :: log[i].session < k
    requires forall j | 0 <= j < |sessions| :: Orderly(sessions, log, j)
    ensures forall j | 0 <= j < |sessions| :: Orderly(sessions, log + said, j)
    ensures forall i | 0 <= i < |log + said| :: (log + said)[i].session < k + 1
  {
    hide SentIn, AcceptedIn, NeedsContinuationPrompt, HoldsAcceptedTurn, Answers;
    AnswersTell(k, said, ContinuationPrompt);
    AnswersTell(k, said, RestoreActions);
    AnswersTell(k, said, ResumeQueue);
    forall j | 0 <= j < |sessions| ensures Orderly(sessions, log + said, j) {
      assert Orderly(sessions, log, j);
      Joined(log, said, j, ContinuationPrompt);
      Joined(log, said, j, RestoreActions);
      Joined(log, said, j, ResumeQueue);
      Elsewhere(log, said, k, j, ContinuationPrompt);
      Elsewhere(log, said, k, j, RestoreActions);
      Elsewhere(log, said, k, j, ResumeQueue);
    }
  }

  lemma Elsewhere(log: seq<Exchange>, said: seq<Exchange>, k: nat, j: nat, request: Request)
    requires forall i | 0 <= i < |log| :: log[i].session < k
    requires forall i | 0 <= i < |said| :: said[i].session == k
    ensures j == k ==> !SentIn(log, j, request) && !AcceptedIn(log, j, request)
    ensures j != k ==> !SentIn(said, j, request) && !AcceptedIn(said, j, request)
  {}

  /** A session can only be resumed once it has been restored. */
  lemma ResumedIsRestored(k: nat, s: Session, origin: Option<string>, restoredIds: map<string, string>,
                          said: seq<Exchange>, r: SessionResult)
    requires Conversation(k, s, origin, restoredIds, said, r) && r.SessionResult? && r.resumed
    ensures r.restored
  {
    assert said[..0] == [] && |said| == 1 ==> Answers(said) == map[said[0].request := said[0].response];
  }

  lemma StaysWired(sessions: seq<Session>, log: seq<Exchange>, k: nat, said: seq<Exchange>,
                   origin: Option<string>, restoredIds: map<string, string>, r: SessionResult)
    requires k < |sessions| && Conversation(k, sessions[k], origin, restoredIds, said, r)
    requires IdsCreated(sessions, log, restoredIds) && forall i | 0 <= i < |log| :: Wired(sessions, log, i)
    ensures forall i | 0 <= i < |log + said| :: Wired(sessions, log + said, i)
    ensures IdsCreated(sessions, log + said,
              if said[0].response.Accepted?
              then restoredIds[sessions[k].activeSessionId := said[0].response.newId] else restoredIds)
  {
    var longer := log + said;
    var ids := if said[0].response.Accepted?
               then restoredIds[sessions[k].activeSessionId := said[0].response.newId] else restoredIds;
    forall i | 0 <= i < |longer| ensures Wired(sessions, longer, i) {
      if i < |log| {
        assert longer[i] == log[i] && Wired(sessions, log, i);
        EarlierWitness(sessions, log, said, i);
      } else if i == |log| {
        assert longer[i] == said[0];
        CreateIsWired(sessions, log, said, k, restoredIds);
      } else {
        assert longer[i] == said[i - |log|];
      }
    }
    forall id <- ids
      ensures exists j | 0 <= j < |longer| ::
                && longer[j].request.Create? && longer[j].response == Accepted(ids[id])
                && longer[j].session < |sessions| && sessions[longer[j].session].activeSessionId == id
    {
      if said[0].response.Accepted? && id == sessions[k].activeSessionId {
        assert longer[|log|] == said[0];
      } else {
        var j :| 0 <= j < |log| && log[j].request.Create? && log[j].response == Accepted(restoredIds[id])
          && log[j].session < |sessions| && sessions[log[j].session].activeSessionId == id;
        assert longer[j] == log[j];
      }
    }
  }

  lemma EarlierWitness(sessions: seq<Session>, log: seq<Exchange>, said: seq<Exchange>, i: nat)
    requires i < |log| && Wired(sessions, log, i)
    ensures Wired(sessions, log + said, i)
  {
    var longer := log + said;
    assert longer[i] == log[i];
    if log[i].request.Create? && log[i].request.metadata.Some? && log[i].request.metadata.value.kind == Subagent
       && log[i].request.metadata.value.parentActiveSessionId.Some? {
      var parent := log[i].request.metadata.value.parentActiveSessionId.value;
      var j :| 0 <= j < i && CreatedAs(sessions, log[i].session, log[j], parent);
      assert longer[j] == log[j];
    }
  }

  lemma CreateIsWired(sessions: seq<Session>, log: seq<Exchange>, said: seq<Exchange>, k: nat,
                      restoredIds: map<string, string>)
    requires k < |sessions| && said != [] && said[0].session == k
    requires said[0].request == Create(RemapRuntimeMetadata(sessions[k], restoredIds))
    requires IdsCreated(sessions, log, restoredIds)
    ensures Wired(sessions, log + said, |log|)
  {
    var longer := log + said;
    assert longer[|log|] == said[0];
    var metadata := RemapRuntimeMetadata(sessions[k], restoredIds);
    if metadata.Some? && metadata.value.kind == Subagent && metadata.value.parentActiveSessionId.Some? {
      var id := sessions[k].runtimeMetadata.value.parentActiveSessionId.value;
      var j :| 0 <= j < |log| && log[j].request.Create? && log[j].response == Accepted(restoredIds[id])
        && log[j].session < |sessions| && sessions[log[j].session].activeSessionId == id;
      assert longer[j] == log[j];
      assert CreatedAs(sessions, k, longer[j], metadata.value.parentActiveSessionId.value);
    }
  }
}
