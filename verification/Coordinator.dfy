/**
 * The update-restart coordinator: it asks the running daemon to prepare its sessions, stops it, starts
 * the replacement, checks that it is one, and restores the sessions. Every call may fail.
 */
module Coordinator {
  import opened Wrappers
  import opened Outcomes
  import opened Restore

  datatype Phase = Starting | Preparing | Stopping | StartingDaemon | Restoring | Complete | Skipped | FailedPhase

  /** Why a call was rejected; `lacksPrepare` is what an older daemon answers to the prepare command. */
  datatype DaemonFailure = DaemonFailure(lacksPrepare: bool, message: string)

  type Reply<+T> = Outcome<T, DaemonFailure>

  // ---------------------------------------------------------------- identity fencing

  datatype Identity = Identity(pid: nat, processStartId: Option<string>, generation: Option<string>,
                               ownerToken: Option<string>)

  datatype Hello = Hello(
    protocolVersion: nat, schemaId: Option<string>, appVersion: string, supervisorSocketPath: Option<string>,
    supervisorPid: Option<int>, processStartId: Option<string>, generation: Option<string>, ownerToken: Option<string>)

  datatype Expected = Expected(protocolVersion: nat, schemaId: string, appVersion: string, socketPath: string)

  /** JavaScript's truthiness of an optional string. */
  predicate Present(s: Option<string>) {
    s.Some? && s.value != ""
  }

  function ProcessIdentity(hello: Hello): (identity: Option<Identity>)
    ensures identity.Some? <==> hello.supervisorPid.Some? && hello.supervisorPid.value > 0
  {
    if hello.supervisorPid.None? || hello.supervisorPid.value <= 0 then None
    else
      Some(Identity(
             hello.supervisorPid.value,
             if Present(hello.processStartId) then hello.processStartId else None,
             if Present(hello.generation) then hello.generation else None,
             if Present(hello.ownerToken) then hello.ownerToken else None))
  }

  /** The replacement's identity, if it is the expected daemon, on this socket, fenced, and not the predecessor. */
  function ValidateReplacementDaemon(expected: Expected, normalize: string -> string, hello: Hello,
                                     predecessor: Option<Identity>): (successor: Reply<Identity>)
  {
    if hello.protocolVersion != expected.protocolVersion || hello.schemaId != Some(expected.schemaId)
       || hello.appVersion != expected.appVersion then
      Threw(DaemonFailure(false, "version mismatch"))
    else if !Present(hello.supervisorSocketPath)
            || normalize(hello.supervisorSocketPath.value) != normalize(expected.socketPath) then
      Threw(DaemonFailure(false, "socket mismatch"))
    else
      var identity := ProcessIdentity(hello);
      if identity.None? || identity.value.generation.None? || identity.value.ownerToken.None? then
        Threw(DaemonFailure(false, "no identity fence"))
      else
        var s := identity.value;
        if predecessor.Some?
           && ((predecessor.value.generation.Some? && s.generation == predecessor.value.generation)
               || (predecessor.value.ownerToken.Some? && s.ownerToken == predecessor.value.ownerToken)
               || (s.pid == predecessor.value.pid && predecessor.value.processStartId.Some?
                   && s.processStartId == predecessor.value.processStartId)) then
          Threw(DaemonFailure(false, "still the predecessor"))
        else
          Done(s)
  }

  /**
   * A daemon is accepted as the replacement exactly if it has the expected protocol, schema and version,
   * listens on this socket, has a process id and both marks of a fence, and shares none of the marks that
   * are known of the predecessor.
   */
  lemma AcceptedExactly(expected: Expected, normalize: string -> string, hello: Hello, predecessor: Option<Identity>)
    ensures ValidateReplacementDaemon(expected, normalize, hello, predecessor).Done? <==>
            && hello.protocolVersion == expected.protocolVersion && hello.schemaId == Some(expected.schemaId)
            && hello.appVersion == expected.appVersion
            && Present(hello.supervisorSocketPath)
            && normalize(hello.supervisorSocketPath.value) == normalize(expected.socketPath)
            && hello.supervisorPid.Some? && hello.supervisorPid.value > 0
            && Present(hello.generation) && Present(hello.ownerToken)
            && (predecessor.Some? ==>
                  && predecessor.value.generation != hello.generation
                  && predecessor.value.ownerToken != hello.ownerToken
                  && !(predecessor.value.pid == hello.supervisorPid.value && predecessor.value.processStartId.Some?
                       && Present(hello.processStartId) && predecessor.value.processStartId == hello.processStartId))
  {}

  /**
   * An accepted replacement carries a complete fence and shares none of the predecessor's marks, so a
   * daemon that announces what the predecessor announced is never accepted if the predecessor had any
   * of generation, owner token or process start.
   */
  lemma ReplacementIsNotThePredecessor(expected: Expected, normalize: string -> string, before: Hello, after: Hello)
    requires ProcessIdentity(before).Some?
    requires ValidateReplacementDaemon(expected, normalize, after, ProcessIdentity(before)).Done?
    ensures Present(after.generation) && Present(after.ownerToken)
    ensures Present(before.generation) ==> after.generation != before.generation
    ensures Present(before.ownerToken) ==> after.ownerToken != before.ownerToken
    ensures Present(before.processStartId) ==>
              after.supervisorPid != before.supervisorPid || after.processStartId != before.processStartId
    ensures after.protocolVersion == expected.protocolVersion && after.appVersion == expected.appVersion
  {
    var p, s := ProcessIdentity(before).value, ProcessIdentity(after).value;
    assert s.generation == after.generation && s.ownerToken == after.ownerToken;
  }

  // ---------------------------------------------------------------- what the coordinator does to the world

  datatype Manifest = Manifest(sessions: seq<Session>, registryDir: Option<string>)

  /** What the coordinator was started with; `origin` is the session that asked for the update, if one did. */
  datatype Order = Order(expected: Expected, normalize: string -> string, origin: Option<string>)

  datatype Probe = Unreachable | Reachable(mayHaveBusySessions: bool)

  datatype Status = Status(phase: Phase, counts: Counts)

  /** What the coordinator does, and what it learns from those it asks. */
  datatype Effect =
    | LeaseAcquired | LeaseReleased
    | AdmissionAcquired | AdmissionRenewed | AdmissionReleased
    | Probed(probe: Probe)
    | PredecessorGreeted(hello: Hello)
    /** The manifest file that an earlier attempt, or a failed prepare, has left; none if it cannot be read. */
    | ManifestRead(found: Option<Manifest>)
    | SessionsListed(idle: bool)
    | PrepareAsked
    | PrepareAnswered(answer: Manifest)
    | StaleManifestDeleted
    | ManifestPrepared(manifest: Manifest)
    | PrepareUnsupported
    | ShutdownRequested
    | ShutdownAnswered(stopped: bool)
    | ProbedAgain(reachable: bool)
    | FenceAwaited
    | ReplacementStarted
    | SuccessorValidated(greeting: Hello)
    | RestoreReturned(talks: seq<Talk>, counts: Counts)
    | PreparedManifestDeleted
    | StatusCopied
    | Reported(phase: Phase, counts: Counts)
    /** Something the coordinator awaited was rejected. */
    | CallRejected(error: DaemonFailure)
    /** The greeting of the new daemon did not pass. */
    | GreetingRefused

  datatype Hold = Never | Held | Released

  /**
   * What is known of manifests: the file as last read, whether a prepare was asked for, and the one to use; and
   * of rejections: the last one, and whether one came after the predecessor had survived its shutdown.
   */
  datatype News = News(
    left: Option<Option<Manifest>>, asked: bool, usable: Option<Manifest>, rejected: Option<DaemonFailure>, late: bool)

  /** What is known of the predecessor. */
  datatype Predecessor = Predecessor(
    probe: Option<Probe>, greeted: Option<Identity>, unsupported: bool, shutdown: bool, gone: bool, survived: bool)

  datatype Papers = Papers(prepared: Option<Manifest>, restored: Option<Counts>, deleted: bool)

  datatype Successor = Successor(fenced: bool, started: bool, validated: bool)

  datatype World = World(
    lease: Hold, admission: Hold, renewed: bool, news: News, pred: Predecessor, papers: Papers, next: Successor)

  const UNTOUCHED :=
    World(Never, Never, false, News(None, false, None, None, false),
          Predecessor(None, None, false, false, false, false),
          Papers(None, None, false), Successor(false, false, false))

  predicate HasSessions(manifest: Option<Manifest>) {
    manifest.Some? && manifest.value.sessions != []
  }

  predicate AddsUp(counts: Counts, manifest: Manifest) {
    && counts.total == |manifest.sessions| && counts.restored + counts.failed == counts.total
    && counts.resumed <= counts.restored
  }

  /** The predecessor does not run: none answered the first probe, or it stopped, or it does not answer any more. */
  predicate NoPredecessor(w: World) {
    w.pred.probe == Some(Unreachable) || w.pred.gone
  }

  /** A predecessor that survived its shutdown has its sessions back, unless a call was rejected on the way. */
  predicate Rescued(w: World) {
    w.pred.survived && w.papers.prepared.Some? ==> w.papers.deleted || w.news.late
  }

  /**
   * What may happen in a given state of the world. A manifest may be used that the daemon has just prepared,
   * or that a failed prepare left behind; or one that was left earlier and has sessions, if no daemon
   * answers or it says that it has none active. The predecessor is stopped only under a renewed
   * admission, and only with a prepared manifest or when it cannot prepare one and is idle; the
   * admission is not given up before a predecessor that survived has its sessions back, if they can be brought
   * back; the replacement starts only behind the startup fence, after the admission is given up, and with no
   * predecessor running; sessions are restored on a validated successor, or on a predecessor that
   * survived; a prepared manifest goes only after a restore loop over it returned; completion is reported
   * only when all of this is done, and with its counts; a run is skipped only with no daemon and no manifest
   * that has sessions.
   */
  predicate Allowed(w: World, e: Effect) {
    match e
    case LeaseAcquired => w == UNTOUCHED
    case LeaseReleased => w.lease == Held && w.admission != Held
    case AdmissionAcquired => w.lease == Held && w.admission == Never
    case AdmissionRenewed => w.admission == Held
    case AdmissionReleased => w.admission == Held && Rescued(w)
    case Probed(_) => w.lease == Held && w.admission == Held && w.pred.probe.None?
    case PredecessorGreeted(_) =>
      w.pred.probe.Some? && w.pred.probe.value.Reachable? && w.pred.greeted.None? && !w.next.started
    case ManifestRead(_) =>
      w.lease == Held && w.pred.probe.Some? && (w.pred.probe == Some(Unreachable) ==> w.news.left.None?)
    case SessionsListed(_) => w.pred.probe.Some? && w.pred.probe.value.Reachable? && w.news.left.Some? && !w.news.asked
    case PrepareAsked => w.pred.probe.Some? && w.pred.probe.value.Reachable? && !w.papers.prepared.Some?
    case PrepareAnswered(_) => w.news.asked && w.papers.prepared.None?
    case StaleManifestDeleted => w.lease == Held && w.papers.prepared.None?
    case ManifestPrepared(manifest) =>
      w.admission == Held && w.papers.prepared.None? && !w.pred.unsupported && w.news.usable == Some(manifest)
    case PrepareUnsupported =>
      && w.admission == Held && w.papers.prepared.None? && w.pred.probe == Some(Reachable(false))
      && w.news.rejected.Some? && w.news.rejected.value.lacksPrepare
    case ShutdownRequested =>
      w.admission == Held && w.renewed && !w.pred.shutdown && (w.papers.prepared.Some? || w.pred.unsupported)
    case ShutdownAnswered(_) => w.pred.shutdown && !w.pred.gone && !w.pred.survived
    case ProbedAgain(_) => w.pred.shutdown && !w.pred.gone && !w.pred.survived && w.admission == Held && !w.next.started
    case FenceAwaited => w.admission == Held && NoPredecessor(w)
    case ReplacementStarted =>
      w.lease == Held && w.admission == Released && w.next.fenced && NoPredecessor(w) && !w.next.started
    case SuccessorValidated(_) => w.lease == Held && w.next.started
    case RestoreReturned(_, counts) =>
      && w.lease == Held && w.papers.prepared.Some? && (w.next.validated || w.pred.survived) && w.papers.restored.None?
      && AddsUp(counts, w.papers.prepared.value)
    case PreparedManifestDeleted => w.lease == Held && w.papers.prepared.Some? && w.papers.restored.Some?
    case StatusCopied => w.lease == Never
    case Reported(Complete, counts) =>
      && w.lease == Held && w.next.validated
      && (if w.papers.prepared.Some? then w.papers.restored == Some(counts) && w.papers.deleted
          else counts == Counts(0, 0, 0, 0))
    case Reported(Skipped, _) =>
      && w.lease == Held && w.papers.prepared.None? && w.pred.probe == Some(Unreachable)
      && w.news.left.Some? && !HasSessions(w.news.left.value)
    case Reported(_, _) => true
    case CallRejected(_) => true
    case GreetingRefused => w.lease == Held && w.next.started
  }

  function Learnt(w: World, e: Effect): News {
    match e
    case ManifestRead(found) =>
      w.news.(left := Some(found),
              usable := if w.news.asked || (w.pred.probe == Some(Unreachable) && HasSessions(found)) then found
                        else None)
    case SessionsListed(idle) =>
      if idle && w.news.left.Some? && HasSessions(w.news.left.value) then w.news.(usable := w.news.left.value)
      else w.news
    case PrepareAsked => w.news.(asked := true, usable := None)
    case PrepareAnswered(answer) => w.news.(usable := Some(answer))
    case CallRejected(error) => w.news.(rejected := Some(error), late := w.news.late || w.pred.survived)
    case _ => w.news
  }

  function LeaseAfter(lease: Hold, e: Effect): Hold {
    match e
    case LeaseAcquired => Held
    case LeaseReleased => Released
    case _ => lease
  }

  function AdmissionAfter(admission: Hold, e: Effect): Hold {
    match e
    case AdmissionAcquired => Held
    case AdmissionReleased => Released
    case _ => admission
  }

  /** A renewal is used up by a shutdown request, and by the release. */
  function RenewedAfter(renewed: bool, e: Effect): bool {
    match e
    case AdmissionRenewed => true
    case AdmissionReleased => false
    case ShutdownRequested => false
    case _ => renewed
  }

  function PredecessorAfter(p: Predecessor, e: Effect): Predecessor {
    match e
    case Probed(probe) => p.(probe := Some(probe))
    case PredecessorGreeted(hello) => p.(greeted := ProcessIdentity(hello))
    case PrepareUnsupported => p.(unsupported := true)
    case ShutdownRequested => p.(shutdown := true)
    case ShutdownAnswered(stopped) => if stopped then p.(gone := true) else p
    case ProbedAgain(reachable) => if reachable then p.(survived := true) else p.(gone := true)
    case _ => p
  }

  function PapersAfter(p: Papers, e: Effect): Papers {
    match e
    case ManifestPrepared(manifest) => p.(prepared := Some(manifest))
    case RestoreReturned(_, counts) => p.(restored := Some(counts))
    case PreparedManifestDeleted => p.(deleted := true)
    case _ => p
  }

  function SuccessorAfter(s: Successor, e: Effect): Successor {
    match e
    case FenceAwaited => s.(fenced := true)
    case ReplacementStarted => s.(started := true)
    case SuccessorValidated(_) => s.(validated := true)
    case _ => s
  }

  function After(w: World, e: Effect): World {
    World(LeaseAfter(w.lease, e), AdmissionAfter(w.admission, e), RenewedAfter(w.renewed, e), Learnt(w, e),
          PredecessorAfter(w.pred, e), PapersAfter(w.papers, e), SuccessorAfter(w.next, e))
  }

  function WorldAfter(log: seq<Effect>): World {
    if log == [] then UNTOUCHED else After(WorldAfter(log[..|log| - 1]), log[|log| - 1])
  }

  predicate Safe(log: seq<Effect>) {
    log == [] || (Safe(log[..|log| - 1]) && Allowed(WorldAfter(log[..|log| - 1]), log[|log| - 1]))
  }

  lemma Did(log: seq<Effect>, e: Effect)
    ensures WorldAfter(log + [e]) == After(WorldAfter(log), e)
    ensures Safe(log + [e]) <==> Safe(log) && Allowed(WorldAfter(log), e)
  {
    assert (log + [e])[..|log|] == log;
  }

  // ---------------------------------------------------------------- what safety means, event by event

  lemma {:induction false} SafePrefix(log: seq<Effect>, i: nat)
    requires Safe(log) && i < |log|
    ensures Safe(log[..i]) && Allowed(WorldAfter(log[..i]), log[i])
    ensures WorldAfter(log[..i + 1]) == After(WorldAfter(log[..i]), log[i])
  {
    hide Allowed;
    var before := log[..|log| - 1];
    if i < |log| - 1 {
      SafePrefix(before, i);
      assert before[..i] == log[..i] && before[..i + 1] == log[..i + 1];
    } else {
      assert log[..i] == before && log[..i + 1] == log;
    }
  }

  function Count(log: seq<Effect>, e: Effect): nat {
    if log == [] then 0 else Count(log[..|log| - 1], e) + if log[|log| - 1] == e then 1 else 0
  }

  /** How often the two holds have changed hands. */
  predicate HoldsRemembered(log: seq<Effect>, w: World) {
    && Count(log, LeaseAcquired) == (if w.lease == Never then 0 else 1)
    && Count(log, LeaseReleased) == (if w.lease == Released then 1 else 0)
    && Count(log, AdmissionAcquired) == (if w.admission == Never then 0 else 1)
    && Count(log, AdmissionReleased) == (if w.admission == Released then 1 else 0)
    && (w.lease == Never ==> w == UNTOUCHED.(news := w.news))
  }

  /** What the flags of the world remember of the log: the manifest, the predecessor, the successor. */
  predicate FlagsRemembered(log: seq<Effect>, w: World) {
    && ManifestRemembered(log, w) && PredecessorRemembered(log, w) && SuccessorRemembered(log, w)
    && ProbeRemembered(log, w)
  }

  predicate Prepared(log: seq<Effect>) {
    exists e <- log :: e.ManifestPrepared?
  }

  predicate Returned(log: seq<Effect>) {
    exists e <- log :: e.RestoreReturned?
  }

  predicate ReturnedWith(log: seq<Effect>, counts: Counts) {
    exists e <- log :: e.RestoreReturned? && e.counts == counts
  }

  predicate Validated(log: seq<Effect>) {
    exists e <- log :: e.SuccessorValidated?
  }

  predicate ManifestRemembered(log: seq<Effect>, w: World) {
    && (w.papers.prepared.Some? <==> Prepared(log))
    && (w.papers.prepared.Some? ==> ManifestPrepared(w.papers.prepared.value) in log)
    && (w.papers.restored.Some? <==> Returned(log))
    && (w.papers.restored.Some? ==> ReturnedWith(log, w.papers.restored.value))
    && (w.papers.deleted <==> PreparedManifestDeleted in log)
  }

  predicate PredecessorRemembered(log: seq<Effect>, w: World) {
    && (w.pred.unsupported <==> PrepareUnsupported in log) && (w.pred.shutdown <==> ShutdownRequested in log)
    && (w.pred.survived <==> ProbedAgain(true) in log)
    && (w.pred.gone <==> ShutdownAnswered(true) in log || ProbedAgain(false) in log)
  }

  predicate SuccessorRemembered(log: seq<Effect>, w: World) {
    && (w.next.fenced <==> FenceAwaited in log) && (w.next.started <==> ReplacementStarted in log)
    && (w.next.validated <==> Validated(log))
  }

  /** Every probe in the log is the one remembered, and without a daemon every manifest read is the one remembered. */
  predicate ProbeRemembered(log: seq<Effect>, w: World) {
    && (w.pred.probe.Some? ==> Probed(w.pred.probe.value) in log)
    && (forall e <- log :: e.Probed? ==> w.pred.probe == Some(e.probe))
    && (forall e <- log :: e.ManifestRead? ==>
        w.pred.probe.Some? && (w.pred.probe == Some(Unreachable) ==> w.news.left == Some(e.found)))
    && (w.news.left.Some? ==> ManifestRead(w.news.left.value) in log)
  }

  lemma CountAppend(log: seq<Effect>, e: Effect, x: Effect)
    ensures Count(log + [e], x) == Count(log, x) + if e == x then 1 else 0
  {
    assert (log + [e])[..|log|] == log;
  }

  lemma HoldsStep(log: seq<Effect>, w: World, e: Effect)
    requires HoldsRemembered(log, w) && Allowed(w, e)
    ensures HoldsRemembered(log + [e], After(w, e))
  {
    hide Count;
    CountAppend(log, e, LeaseAcquired);
    CountAppend(log, e, LeaseReleased);
    CountAppend(log, e, AdmissionAcquired);
    CountAppend(log, e, AdmissionReleased);
  }

  lemma InAppend(log: seq<Effect>, e: Effect, x: Effect)
    ensures x in log + [e] <==> x in log || x == e
  {}

  lemma FlagsStep(log: seq<Effect>, w: World, e: Effect)
    requires FlagsRemembered(log, w) && Allowed(w, e)
    ensures FlagsRemembered(log + [e], After(w, e))
  {
    hide After, Allowed, ManifestRemembered, PredecessorRemembered, SuccessorRemembered, ProbeRemembered;
    ManifestStep(log, w, e);
    PredecessorStep(log, w, e);
    SuccessorStep(log, w, e);
    ProbeStep(log, w, e);
  }

  lemma ProbeAllowed(w: World, e: Effect)
    requires Allowed(w, e)
    ensures e.Probed? ==> w.pred.probe.None?
    ensures e.ManifestRead? ==> w.pred.probe.Some? && (w.pred.probe == Some(Unreachable) ==> w.news.left.None?)
  {}

  lemma ManifestStep(log: seq<Effect>, w: World, e: Effect)
    requires ManifestRemembered(log, w)
    ensures ManifestRemembered(log + [e], After(w, e))
  {
    assert Prepared(log + [e]) <==> Prepared(log) || e.ManifestPrepared?;
    assert Returned(log + [e]) <==> Returned(log) || e.RestoreReturned?;
    assert forall x <- log :: x in log + [e];
    InAppend(log, e, PreparedManifestDeleted);
  }

  lemma PredecessorStep(log: seq<Effect>, w: World, e: Effect)
    requires PredecessorRemembered(log, w)
    ensures PredecessorRemembered(log + [e], After(w, e))
  {
    InAppend(log, e, PrepareUnsupported);
    InAppend(log, e, ShutdownRequested);
    InAppend(log, e, ShutdownAnswered(true));
    InAppend(log, e, ProbedAgain(true));
    InAppend(log, e, ProbedAgain(false));
  }

  lemma SuccessorStep(log: seq<Effect>, w: World, e: Effect)
    requires SuccessorRemembered(log, w)
    ensures SuccessorRemembered(log + [e], After(w, e))
  {
    assert Validated(log + [e]) <==> Validated(log) || e.SuccessorValidated?;
    InAppend(log, e, FenceAwaited);
    InAppend(log, e, ReplacementStarted);
  }

  lemma ProbeStep(log: seq<Effect>, w: World, e: Effect)
    requires ProbeRemembered(log, w) && Allowed(w, e)
    ensures ProbeRemembered(log + [e], After(w, e))
  {
    hide Allowed;
    ProbeAllowed(w, e);
    assert forall x <- log + [e] :: x in log || x == e;
    assert forall x <- log :: x in log + [e];
  }

  lemma {:induction false} WorldRemembers(log: seq<Effect>)
    requires Safe(log)
    ensures HoldsRemembered(log, WorldAfter(log)) && FlagsRemembered(log, WorldAfter(log))
  {
    hide HoldsRemembered, FlagsRemembered, After;
    if log == [] {
      NothingDone();
    } else {
      var before, e := log[..|log| - 1], log[|log| - 1];
      WorldRemembers(before);
      HoldsStep(before, WorldAfter(before), e);
      FlagsStep(before, WorldAfter(before), e);
      assert log == before + [e];
    }
  }

  lemma FailureMayBeReported(w: World, counts: Counts)
    ensures Allowed(w, Reported(FailedPhase, counts))
  {}

  lemma CallWasRejected(w: World, error: DaemonFailure)
    ensures Allowed(w, CallRejected(error))
    ensures After(w, CallRejected(error)) ==
            w.(news := w.news.(rejected := Some(error), late := w.news.late || w.pred.survived))
  {}

  lemma NothingDone()
    ensures WorldAfter([]) == UNTOUCHED
    ensures HoldsRemembered([], UNTOUCHED) && FlagsRemembered([], UNTOUCHED)
  {}

  /**
   * At the end of a run that gave everything back, each hold was released as often as it was acquired, at most
   * once.
   */
  lemma HoldsAreReleasedOnce(log: seq<Effect>)
    requires Safe(log) && WorldAfter(log).lease != Held && WorldAfter(log).admission != Held
    ensures Count(log, LeaseReleased) == Count(log, LeaseAcquired) <= 1
    ensures Count(log, AdmissionReleased) == Count(log, AdmissionAcquired) <= 1
  {
    hide Safe, WorldAfter, Count;
    WorldRemembers(log);
  }

  /**
   * The predecessor is told to stop only while the admission is held, and only when its sessions are safe or it
   * has none to save.
   */
  lemma ShutdownIsSafe(log: seq<Effect>, i: nat)
    requires Safe(log) && i < |log| && log[i] == ShutdownRequested
    ensures Count(log[..i], AdmissionAcquired) == 1 && Count(log[..i], AdmissionReleased) == 0
    ensures Prepared(log[..i]) || PrepareUnsupported in log[..i]
  {
    hide Safe, WorldAfter;
    SafePrefix(log, i);
    WorldRemembers(log[..i]);
  }

  /** A predecessor goes without a manifest only if it answered as idle and the last rejection was of the command. */
  lemma UnsupportedIsIdle(log: seq<Effect>, i: nat)
    requires Safe(log) && i < |log| && log[i] == PrepareUnsupported
    ensures Probed(Reachable(false)) in log[..i] && !Prepared(log[..i])
  {
    hide Safe, WorldAfter;
    SafePrefix(log, i);
    WorldRemembers(log[..i]);
  }

  /**
   * The replacement starts behind the fence, after the admission was given up, once; and only when no daemon
   * answered the first probe, or the predecessor stopped, or did not answer any more.
   */
  lemma ReplacementIsAdmitted(log: seq<Effect>, i: nat)
    requires Safe(log) && i < |log| && log[i] == ReplacementStarted
    ensures FenceAwaited in log[..i] && Count(log[..i], AdmissionReleased) == 1
    ensures ReplacementStarted !in log[..i]
    ensures Probed(Unreachable) in log[..i] || ShutdownAnswered(true) in log[..i] || ProbedAgain(false) in log[..i]
  {
    hide Safe, WorldAfter;
    SafePrefix(log, i);
    WorldRemembers(log[..i]);
  }

  /**
   * Completion means a validated successor, with the manifest, if there was one, restored and only then
   * deleted; the counts reported are those of that restore, and add up to its sessions.
   */
  lemma CompleteIsEarned(log: seq<Effect>, i: nat)
    requires Safe(log) && i < |log| && log[i].Reported? && log[i].phase == Complete
    ensures Validated(log[..i])
    ensures Prepared(log[..i]) ==> ReturnedWith(log[..i], log[i].counts) && PreparedManifestDeleted in log[..i]
    ensures !Prepared(log[..i]) ==> log[i].counts == Counts(0, 0, 0, 0)
  {
    hide Safe, WorldAfter;
    SafePrefix(log, i);
    WorldRemembers(log[..i]);
  }

  /**
   * A prepared predecessor that would not go has its sessions restored and the manifest deleted before the
   * admission is given up, unless something was rejected after it had turned out to be still there.
   */
  lemma SurvivorIsRescued(log: seq<Effect>, i: nat)
    requires Safe(log) && i < |log| && log[i] == AdmissionReleased
    requires ProbedAgain(true) in log[..i] && Prepared(log[..i])
    ensures || (Returned(log[..i]) && PreparedManifestDeleted in log[..i])
            || exists x, y | 0 <= x < y < i :: log[x] == ProbedAgain(true) && log[y].CallRejected?
  {
    hide Safe, WorldAfter;
    SafePrefix(log, i);
    WorldRemembers(log[..i]);
    if WorldAfter(log[..i]).papers.deleted {
      DeletedWasRestored(log[..i]);
    } else {
      var x, y := LateRejection(log[..i]);
      assert log[..i][x] == log[x] && log[..i][y] == log[y];
    }
  }

  lemma {:induction false} DeletedWasRestored(log: seq<Effect>)
    requires Safe(log) && PreparedManifestDeleted in log
    ensures Returned(log)
  {
    hide Allowed, WorldAfter;
    var before := log[..|log| - 1];
    assert forall e <- before :: e in log;
    if PreparedManifestDeleted in before {
      DeletedWasRestored(before);
    } else {
      ManifestOutlivesRestore(log, |log| - 1);
    }
  }

  lemma {:induction false} LateRejection(log: seq<Effect>) returns (x: nat, y: nat)
    requires Safe(log) && WorldAfter(log).news.late
    ensures x < y < |log| && log[x] == ProbedAgain(true) && log[y].CallRejected?
  {
    hide Allowed, After;
    NothingDone();
    var before, e := log[..|log| - 1], log[|log| - 1];
    Did(before, e);
    assert log == before + [e];
    LateStep(WorldAfter(before), e);
    if WorldAfter(before).news.late {
      x, y := LateRejection(before);
    } else {
      WorldRemembers(before);
      x :| x < |before| && before[x] == ProbedAgain(true);
      y := |before|;
    }
  }

  lemma LateStep(w: World, e: Effect)
    ensures After(w, e).news.late ==> w.news.late || (w.pred.survived && e.CallRejected?)
  {}

  /** A prepared manifest is deleted only after a restore loop over it returned. */
  lemma ManifestOutlivesRestore(log: seq<Effect>, i: nat)
    requires Safe(log) && i < |log|
    requires log[i] == PreparedManifestDeleted || (log[i] == StaleManifestDeleted && Prepared(log[..i]))
    ensures log[i] == PreparedManifestDeleted && Returned(log[..i])
  {
    hide Safe, WorldAfter;
    SafePrefix(log, i);
    WorldRemembers(log[..i]);
  }

  // ---------------------------------------------------------------- the coordinator

  /** The status was reported by this run, or copied from the one that was already under way. */
  predicate Earned(log: seq<Effect>, status: Status) {
    exists e <- log :: e.StatusCopied? || e == Reported(status.phase, status.counts)
  }

  lemma EarnedAppend(log: seq<Effect>, e: Effect, status: Status)
    ensures Earned(log + [e], status) <==>
              Earned(log, status) || e.StatusCopied? || e == Reported(status.phase, status.counts)
  {
    assert e in log + [e] && forall x <- log :: x in log + [e];
    assert forall x <- log + [e] :: x in log || x == e;
  }

  /** A call was rejected, the greeting of the new daemon was refused, or the predecessor would not go. */
  predicate Troubled(log: seq<Effect>) {
    exists e <- log :: IsTrouble(e)
  }

  predicate IsTrouble(e: Effect) {
    e.CallRejected? || e.GreetingRefused? || e == ProbedAgain(true)
  }

  lemma TroubledAppend(log: seq<Effect>, e: Effect)
    ensures Troubled(log + [e]) <==> Troubled(log) || IsTrouble(e)
  {
    assert forall x :: x in log + [e] <==> x in log || x == e;
  }

  /** Nothing that was done is forgotten. */
  predicate Grew(before: seq<Effect>, log: seq<Effect>) {
    (Troubled(before) ==> Troubled(log)) && (StatusCopied in before ==> StatusCopied in log)
  }

  /** Skipping means that no daemon answered, and that no manifest with sessions was left. */
  lemma SkippedMeansIdle(log: seq<Effect>, i: nat)
    requires Safe(log) && i < |log| && log[i].Reported? && log[i].phase == Skipped
    ensures Probed(Unreachable) in log[..i] && (forall e <- log[..i] :: e.Probed? ==> e.probe == Unreachable)
    ensures exists e <- log[..i] :: e.ManifestRead?
    ensures forall e <- log[..i] :: e.ManifestRead? && e.found.Some? ==> e.found.value.sessions == []
    ensures !Prepared(log[..i])
  {
    hide Safe, WorldAfter;
    SafePrefix(log, i);
    WorldRemembers(log[..i]);
    var w := WorldAfter(log[..i]);
    assert ManifestRead(w.news.left.value) in log[..i];
  }

  /** A daemon that answers the probe, or a manifest with sessions when none does, is never skipped over. */
  lemma WorkIsNeverSkipped(log: seq<Effect>, i: nat, j: nat)
    requires Safe(log) && i < j < |log|
    requires (log[i].Probed? && log[i].probe.Reachable?)
             || (log[i].ManifestRead? && log[i].found.Some? && log[i].found.value.sessions != [])
    ensures !(log[j].Reported? && log[j].phase == Skipped)
  {
    assert log[i] == log[..j][i];
    if log[j].Reported? && log[j].phase == Skipped {
      SkippedMeansIdle(log, j);
      assert false;
    }
  }

  /**
   * Every successor that was validated greeted as the expected daemon and not as the predecessor, and every
   * restore that returned went through the prepared manifest.
   */
  ghost predicate Vetted(order: Order, log: seq<Effect>) {
    log == []
    || (var before, e := log[..|log| - 1], log[|log| - 1];
        Vetted(order, before) && Accepts(order, WorldAfter(before), e))
  }

  ghost predicate Accepts(order: Order, w: World, e: Effect) {
    match e
    case SuccessorValidated(greeting) =>
      ValidateReplacementDaemon(order.expected, order.normalize, greeting, w.pred.greeted).Done?
    case RestoreReturned(talks, counts) =>
      w.papers.prepared.Some? && Completes(w.papers.prepared.value.sessions, order.origin, talks, counts)
    case _ => true
  }

  lemma VettedAppend(order: Order, log: seq<Effect>, e: Effect)
    ensures Vetted(order, log + [e]) <==>
              Vetted(order, log) && Accepts(order, WorldAfter(log), e)
  {
    hide Accepts, WorldAfter;
    assert (log + [e])[..|log|] == log;
  }

  lemma {:induction false} VettedAt(order: Order, log: seq<Effect>, i: nat)
    requires Vetted(order, log) && i < |log|
    ensures Accepts(order, WorldAfter(log[..i]), log[i])
  {
    hide Accepts, WorldAfter;
    var before := log[..|log| - 1];
    if i < |log| - 1 {
      VettedAt(order, before, i);
      assert before[..i] == log[..i];
    } else {
      assert log[..i] == before;
    }
  }

  lemma {:induction false} GreetedKept(log: seq<Effect>, i: nat, j: nat)
    requires Safe(log) && i <= j <= |log| && WorldAfter(log[..i]).pred.greeted.Some?
    ensures WorldAfter(log[..j]).pred.greeted == WorldAfter(log[..i]).pred.greeted
    decreases j - i
  {
    hide Safe, WorldAfter;
    if i < j {
      SafePrefix(log, i);
      GreetedOnce(WorldAfter(log[..i]), log[i]);
      GreetedKept(log, i + 1, j);
    }
  }

  lemma GreetedOnce(w: World, e: Effect)
    requires Allowed(w, e) && w.pred.greeted.Some?
    ensures After(w, e).pred.greeted == w.pred.greeted
  {}

  lemma GreetedNow(w: World, hello: Hello)
    ensures After(w, PredecessorGreeted(hello)).pred.greeted == ProcessIdentity(hello)
  {}

  /** A successor that was validated passed the validation against the predecessor that had greeted before. */
  lemma SuccessorIsNotThePredecessor(order: Order, log: seq<Effect>, i: nat, j: nat)
    requires Safe(log) && Vetted(order, log) && i < j < |log|
    requires log[i].PredecessorGreeted? && ProcessIdentity(log[i].hello).Some? && log[j].SuccessorValidated?
    ensures ValidateReplacementDaemon(order.expected, order.normalize, log[j].greeting,
                                      ProcessIdentity(log[i].hello)).Done?
  {
    hide Safe, WorldAfter, ProcessIdentity, ValidateReplacementDaemon;
    SafePrefix(log, i);
    GreetedNow(WorldAfter(log[..i]), log[i].hello);
    GreetedKept(log, i + 1, j);
    VettedAt(order, log, j);
  }

  /**
   * A restore that returned went through the manifest that was prepared, session by session and counting
   * what became of each, on a daemon that was there to restore it.
   */
  lemma RestoreIsOfThePrepared(order: Order, log: seq<Effect>, i: nat) returns (manifest: Manifest)
    requires Safe(log) && Vetted(order, log) && i < |log| && log[i].RestoreReturned?
    ensures ManifestPrepared(manifest) in log[..i]
    ensures Completes(manifest.sessions, order.origin, log[i].talks, log[i].counts)
    ensures !Returned(log[..i]) && (Validated(log[..i]) || ProbedAgain(true) in log[..i])
  {
    hide Safe, WorldAfter, Completes;
    SafePrefix(log, i);
    WorldRemembers(log[..i]);
    VettedAt(order, log, i);
    manifest := WorldAfter(log[..i]).papers.prepared.value;
  }

  lemma MayReturn(order: Order, w: World, manifest: Manifest, talks: seq<Talk>, counts: Counts)
    requires w.lease == Held && w.papers == Papers(Some(manifest), None, false)
    requires (w.next.validated || w.pred.survived) && AddsUp(counts, manifest)
    ensures Allowed(w, RestoreReturned(talks, counts))
    ensures Completes(manifest.sessions, order.origin, talks, counts) ==>
            Accepts(order, w, RestoreReturned(talks, counts))
    ensures After(w, RestoreReturned(talks, counts)) == w.(papers := Papers(Some(manifest), Some(counts), false))
  {}

  lemma ReadOnce(w: World, found: Option<Manifest>)
    ensures Learnt(w, ManifestRead(found)).left == Some(found) && Learnt(w, ManifestRead(found)).asked == w.news.asked
    ensures Learnt(w, ManifestRead(found)).late == w.news.late
  {}

  lemma ReportedNothing(order: Order, w: World, phase: Phase, counts: Counts)
    ensures After(w, Reported(phase, counts)) == w && !IsTrouble(Reported(phase, counts))
    ensures Accepts(order, w, Reported(phase, counts))
  {}

  function Rejected(w: World, error: DaemonFailure): World {
    w.(news := w.news.(rejected := Some(error), late := w.news.late || w.pred.survived))
  }

  /** Only what is known of manifests and rejections may have changed. */
  predicate Still(w: World, before: World) {
    w == before.(news := w.news) && (before.news.late ==> w.news.late)
  }

  /** The effect of each step, one flag at a time. */
  lemma Fenced(w: World)
    ensures After(w, FenceAwaited) == w.(next := w.next.(fenced := true))
    ensures After(w, AdmissionRenewed) == w.(renewed := true)
    ensures After(w, AdmissionReleased) == w.(admission := Released, renewed := false)
  {}

  lemma Asked(w: World)
    ensures After(w, ShutdownRequested) == w.(pred := w.pred.(shutdown := true), renewed := false)
    ensures After(w, ShutdownAnswered(true)) == w.(pred := w.pred.(gone := true))
            && After(w, ShutdownAnswered(false)) == w
    ensures After(w, ProbedAgain(true)) == w.(pred := w.pred.(survived := true))
            && After(w, ProbedAgain(false)) == w.(pred := w.pred.(gone := true))
  {}

  lemma Restarted(w: World)
    ensures After(w, ReplacementStarted) == w.(next := w.next.(started := true))
  {}

  lemma Greeted(w: World, greeting: Hello)
    ensures After(w, SuccessorValidated(greeting)) == w.(next := w.next.(validated := true))
    ensures After(w, GreetingRefused) == w
  {}

  lemma Begun(w: World, probe: Probe)
    ensures After(w, AdmissionAcquired) == w.(admission := Held)
            && After(w, Probed(probe)) == w.(pred := w.pred.(probe := Some(probe)))
  {}

  lemma GivingUpAdmission(w: World, counts: Counts)
    requires w.admission == Held && w.lease == Held && NoPredecessor(w)
    ensures Allowed(w, Reported(StartingDaemon, counts)) && Allowed(w, FenceAwaited)
    ensures Allowed(w, AdmissionRenewed) && (!w.pred.survived ==> Allowed(w, AdmissionReleased))
  {}

  lemma ShuttingDown(w: World)
    requires w.admission == Held
    ensures Allowed(w, AdmissionRenewed)
    ensures w.renewed && !w.pred.shutdown && (w.papers.prepared.Some? || w.pred.unsupported) ==>
            Allowed(w, ShutdownRequested)
    ensures w.pred.shutdown && !w.pred.gone && !w.pred.survived ==>
            Allowed(w, ShutdownAnswered(true)) && Allowed(w, ShutdownAnswered(false))
    ensures w.pred.shutdown && !w.pred.gone && !w.pred.survived && !w.next.started ==>
              Allowed(w, ProbedAgain(true)) && Allowed(w, ProbedAgain(false))
  {}

  lemma StartingReplacement(w: World)
    requires w.lease == Held
    ensures w.admission == Released && w.next.fenced && NoPredecessor(w) && !w.next.started ==>
            Allowed(w, ReplacementStarted)
  {}

  lemma Greeting(w: World, greeting: Hello)
    requires w.lease == Held && w.next.started
    ensures Allowed(w, SuccessorValidated(greeting)) && Allowed(w, GreetingRefused)
  {}

  lemma Finishing(w: World, counts: Counts)
    requires w.lease == Held && w.next.validated
    ensures Allowed(w, Reported(Restoring, counts))
    ensures (if w.papers.prepared.Some? then w.papers.restored == Some(counts) && w.papers.deleted
             else counts == Counts(0, 0, 0, 0)) ==>
              Allowed(w, Reported(Complete, counts))
  {}

  lemma Beginning(w: World, probe: Probe, counts: Counts)
    requires w.lease == Held
    ensures w.admission == Never ==> Allowed(w, AdmissionAcquired)
    ensures w.admission == Held && w.pred.probe.None? ==> Allowed(w, Probed(probe))
    ensures w.papers.prepared.None? && w.pred.probe == Some(Unreachable) && w.news.left.Some?
            && !HasSessions(w.news.left.value) ==>
              Allowed(w, Reported(Skipped, counts))
  {}

  class Coordinator {
    const order: Order
    var status: Status
    var lease: bool
    var shutdownAdmission: bool
    ghost var log: seq<Effect>

    /** Nothing unsafe was done, successors were vetted, and a final status is one that was reported. */
    ghost predicate Valid()
      reads this
    {
      && Safe(log) && Vetted(order, log)
      && (status.phase == Complete || status.phase == Skipped ==> Earned(log, status))
    }

    /** The coordinator knows what it holds. */
    ghost predicate HoldsKnown()
      reads this
    {
      lease == (W().lease == Held) && shutdownAdmission == (W().admission == Held)
    }

    ghost function W(): World
      reads this
    {
      WorldAfter(log)
    }

    constructor (order: Order)
      ensures Valid() && HoldsKnown() && log == [] && status == Status(Starting, Counts(0, 0, 0, 0))
      ensures this.order == order
    {
      this.order := order;
      status := Status(Starting, Counts(0, 0, 0, 0));
      lease, shutdownAdmission := false, false;
      log := [];
    }

    ghost method Do(e: Effect)
      requires Valid() && Allowed(W(), e) && Accepts(order, W(), e)
      modifies this`log
      ensures Valid() && W() == After(old(W()), e)
      ensures e == StatusCopied ==> forall any: Status :: Earned(log, any)
      ensures log == old(log) + [e] && Grew(old(log), log)
      ensures Troubled(log) <==> Troubled(old(log)) || IsTrouble(e)
    {
      hide Safe, WorldAfter, Allowed, Earned, Troubled, Vetted, Accepts, After, IsTrouble;
      Did(log, e);
      forall any: Status {
        EarnedAppend(log, e, any);
      }
      TroubledAppend(log, e);
      VettedAppend(order, log, e);
      log := log + [e];
    }

    /** Writing the status file changes the status first, and may then fail. */
    method Report(phase: Phase, counts: Counts) returns (r: Reply<()>)
      requires Valid() && Allowed(W(), Reported(phase, counts))
      modifies this`status, this`log
      ensures Valid() && Still(W(), old(W())) && status == Status(phase, counts)
      ensures (r.Done? ==> W() == old(W())) && (r.Threw? ==> Troubled(log)) && Grew(old(log), log)
    {
      hide Safe, WorldAfter, Allowed, Earned, Troubled, Vetted, Accepts, After, IsTrouble;
      ReportedNothing(order, W(), phase, counts);
      Did(log, Reported(phase, counts));
      EarnedAppend(log, Reported(phase, counts), Status(phase, counts));
      TroubledAppend(log, Reported(phase, counts));
      VettedAppend(order, log, Reported(phase, counts));
      status := Status(phase, counts);
      log := log + [Reported(phase, counts)];
      r := Call();
    }

    /** A call whose only effect on the world is that it may fail. */
    method Call() returns (r: Reply<()>)
      requires Valid()
      modifies this`log
      ensures Valid() && Grew(old(log), log) && (r.Threw? ==> Troubled(log))
      ensures W() == if r.Threw? then Rejected(old(W()), r.error) else old(W())
    {
      hide Safe, WorldAfter, Allowed, Earned, Troubled, Vetted;
      var answer: Reply<()> :| true;
      r := Heard(answer);
    }

    /** An awaited answer; a rejection is remembered. */
    method Heard<T>(answer: Reply<T>) returns (r: Reply<T>)
      requires Valid()
      modifies this`log
      ensures r == answer
      ensures Valid() && Grew(old(log), log) && (r.Threw? ==> Troubled(log))
      ensures W() == if r.Threw? then Rejected(old(W()), r.error) else old(W())
    {
      hide Safe, WorldAfter, Earned, Troubled, Vetted, Allowed, After;
      if answer.Threw? {
        CallWasRejected(W(), answer.error);
        Do(CallRejected(answer.error));
      }
      r := answer;
    }

    /** A call that has the given effect when it succeeds. */
    method CallWith(ghost e: Effect) returns (r: Reply<()>)
      requires Valid() && Allowed(W(), e) && !e.SuccessorValidated? && !e.RestoreReturned?
      modifies this`log
      ensures Valid()
      ensures r.Done? ==> W() == After(old(W()), e)
      ensures r.Threw? ==> Still(W(), old(W())) && Troubled(log)
    {
      hide Safe, WorldAfter, Allowed, Earned, Troubled, Vetted, After;
      r := Call();
      if r.Done? {
        Do(e);
      }
    }

    /** `probeRunningDaemonSessions`. */
    method ProbeDaemon() returns (r: Reply<Probe>)
      requires Valid() && W().lease == Held && W().admission == Held && W().pred.probe.None?
      modifies this`log
      ensures Valid()
      ensures r.Done? ==> W() == old(W()).(pred := old(W()).pred.(probe := Some(r.value)))
      ensures r.Threw? ==> Still(W(), old(W())) && Troubled(log)
    {
      hide Safe, WorldAfter, Earned, Troubled, Vetted;
      var probed: Reply<Probe> :| true;
      r := Heard(probed);
      if r.Done? {
        Do(Probed(r.value));
      }
    }

    /** `tryReadPreparedDaemonUpdateRestartManifest`: an unreadable manifest is deleted. */
    method TryReadPreparedManifest() returns (manifest: Option<Manifest>)
      requires Valid() && W().lease == Held && W().papers.prepared.None? && W().pred.probe.Some?
      requires W().pred.probe == Some(Unreachable) ==> W().news.left.None?
      modifies this`log
      ensures Valid() && W() == old(W()).(news := Learnt(old(W()), ManifestRead(manifest))) && Grew(old(log), log)
    {
      hide Safe, WorldAfter, Earned, Troubled, Vetted;
      var unreadable: bool :| true;
      if unreadable {
        Do(StaleManifestDeleted);
        manifest := None;
      } else {
        manifest :| true;
      }
      Do(ManifestRead(manifest));
    }

    /** A prepare may still be asked for. */
    ghost predicate MayPrepare()
      reads this
    {
      && W().admission == Held && W().lease == Held && W().papers.prepared.None? && !W().pred.unsupported
      && W().pred.probe.Some? && W().pred.probe.value.Reachable?
    }

    /**
     * `prepareConnectedDaemonUpdateRestart`: a usable manifest left by an earlier attempt, or a newly
     * prepared one, or the file that a failed prepare left behind; never one whose fence failed.
     */
    method PrepareConnected(hasFixedOwner: bool) returns (r: Reply<Manifest>)
      requires Valid() && MayPrepare() && !W().news.asked
      modifies this`log
      ensures Valid()
      ensures r.Done? ==> Still(W(), old(W()).(papers := old(W()).papers.(prepared := Some(r.value))))
      ensures r.Threw? ==> Still(W(), old(W())) && W().news.rejected == Some(r.error) && Troubled(log)
    {
      hide Safe, WorldAfter, Earned, Troubled, Vetted, Allowed, After, Learnt;
      var pendingManifest := TryReadPreparedManifest();
      ReadOnce(old(W()), pendingManifest);
      var attempt, fencePersistenceStarted, startedPreparing := TryPrepare(hasFixedOwner, pendingManifest);
      if attempt.Done? {
        UseManifest(attempt.value);
        return attempt;
      }
      if fencePersistenceStarted || !startedPreparing {
        return attempt;
      }
      r := UseFallback(attempt.error);
    }

    /** The manifest that may be used is the prepared one from here on. */
    ghost method UseManifest(manifest: Manifest)
      requires Valid() && MayPrepare() && W().news.usable == Some(manifest)
      modifies this`log
      ensures Valid() && W() == old(W()).(papers := old(W()).papers.(prepared := Some(manifest)))
      ensures Grew(old(log), log)
    {
      hide Safe, WorldAfter, Earned, Troubled, Vetted;
      Do(ManifestPrepared(manifest));
    }

    /** What a prepare that failed with the given error has written in spite of it. */
    method UseFallback(error: DaemonFailure) returns (r: Reply<Manifest>)
      requires Valid() && MayPrepare() && W().news.asked && W().news.rejected == Some(error) && Troubled(log)
      modifies this`log
      ensures Valid()
      ensures r.Done? ==> Still(W(), old(W()).(papers := old(W()).papers.(prepared := Some(r.value))))
      ensures r.Threw? ==> Still(W(), old(W())) && W().news.rejected == Some(r.error) && Troubled(log)
    {
      hide Safe, WorldAfter, Earned, Troubled, Vetted;
      var answer: Reply<Option<Manifest>> :| true;
      var fallback := Heard(answer);
      if fallback.Threw? {
        return Threw(fallback.error);
      }
      Do(ManifestRead(fallback.value));
      if fallback.value.None? {
        return Threw(error);
      }
      var _ :- Call();
      UseManifest(fallback.value.value);
      return Done(fallback.value.value);
    }

    /** The body of its `try`. */
    method TryPrepare(hasFixedOwner: bool, pendingManifest: Option<Manifest>)
      returns (r: Reply<Manifest>, fencePersistenceStarted: bool, startedPreparing: bool)
      requires Valid() && MayPrepare() && !W().news.asked && W().news.left == Some(pendingManifest)
      modifies this`log
      ensures Valid() && Still(W(), old(W())) && W().news.asked == startedPreparing
      ensures r.Done? ==> W().news.usable == Some(r.value)
      ensures r.Threw? ==> W().news.rejected == Some(r.error) && Troubled(log)
      ensures r.Done? && !startedPreparing ==> Some(r.value) == pendingManifest && r.value.sessions != []
    {
      hide Safe, WorldAfter, Earned, Troubled, Vetted, Allowed, After;
      fencePersistenceStarted, startedPreparing := false, false;
      if hasFixedOwner {
        var _ :- Call();
      }
      if pendingManifest.Some? && |pendingManifest.value.sessions| > 0 {
        var idle :- ListSessions(pendingManifest.value);
        if idle {
          fencePersistenceStarted :| true;
          if fencePersistenceStarted {
            var _ :- Call();
          }
          return Done(pendingManifest.value), fencePersistenceStarted, startedPreparing;
        }
      }
      startedPreparing := true;
      var manifest :- AskToPrepare();
      fencePersistenceStarted :| true;
      if fencePersistenceStarted {
        var _ :- Call();
      }
      return Done(manifest), fencePersistenceStarted, startedPreparing;
    }

    /** Whether the daemon lists no active session; the manifest left by an earlier attempt may then be used. */
    method ListSessions(ghost pending: Manifest) returns (r: Reply<bool>)
      requires Valid() && MayPrepare() && !W().news.asked && W().news.left == Some(Some(pending))
               && pending.sessions != []
      modifies this`log
      ensures Valid() && Still(W(), old(W())) && !W().news.asked
      ensures r.Done? && r.value ==> W().news.usable == Some(pending)
      ensures r.Threw? ==> W().news.rejected == Some(r.error) && Troubled(log)
    {
      hide Safe, WorldAfter, Earned, Troubled, Vetted;
      var listed: Reply<bool> :| true;
      r := Heard(listed);
      if r.Done? {
        Do(SessionsListed(r.value));
      }
    }

    /** The old manifest goes, and the daemon is asked for a new one. */
    method AskToPrepare() returns (r: Reply<Manifest>)
      requires Valid() && MayPrepare()
      modifies this`log
      ensures Valid() && Still(W(), old(W())) && W().news.asked
      ensures r.Done? ==> W().news.usable == Some(r.value)
      ensures r.Threw? ==> W().news.rejected == Some(r.error) && Troubled(log)
    {
      hide Safe, WorldAfter, Earned, Troubled, Vetted;
      Do(StaleManifestDeleted);
      Do(PrepareAsked);
      var prepared: Reply<Manifest> :| true;
      r := Heard(prepared);
      if r.Done? {
        Do(PrepareAnswered(r.value));
      }
    }

    /** There is a prepared manifest to restore, and a daemon to restore it on. */
    ghost predicate MayRestore(manifest: Manifest)
      reads this
    {
      && W().lease == Held && W().papers == Papers(Some(manifest), None, false)
      && (W().next.validated || W().pred.survived)
    }

    /** Sessions are restored with their own bookkeeping; the loop returns, or its connection failed. */
    method RestoreManifest(manifest: Manifest) returns (r: Reply<Counts>)
      requires Valid() && MayRestore(manifest)
      modifies this`log
      ensures Valid() && Grew(old(log), log)
      ensures r.Done? ==>
                AddsUp(r.value, manifest) && W() == old(W()).(papers := Papers(Some(manifest), Some(r.value), false))
      ensures r.Threw? ==> Still(W(), old(W())) && Troubled(log)
      ensures r.Threw? && W().pred.survived ==> W().news.late
    {
      hide Safe, WorldAfter, Earned, Troubled, Vetted, Allowed, After;
      var restorer := new Restorer();
      var completed, counts, failures, talks := restorer.RestoreAll(manifest.sessions, order.origin);
      if !completed {
        r := Heard(Threw(DaemonFailure(false, "restore did not complete")));
        return;
      }
      MayReturn(order, W(), manifest, talks, counts);
      Do(RestoreReturned(talks, counts));
      return Done(counts);
    }

    /** The restore loop over a manifest, which is deleted once the loop has returned. */
    method RestoreAndDelete(manifest: Manifest) returns (r: Reply<Counts>)
      requires Valid() && MayRestore(manifest)
      modifies this`log
      ensures Valid() && Grew(old(log), log)
      ensures r.Done? ==>
                AddsUp(r.value, manifest) && W() == old(W()).(papers := Papers(Some(manifest), Some(r.value), true))
      ensures r.Threw? ==> Still(W(), old(W())) && Troubled(log)
      ensures r.Threw? && W().pred.survived ==> W().news.late
    {
      hide Safe, WorldAfter, Earned, Troubled, Vetted;
      var counts :- RestoreManifest(manifest);
      Do(PreparedManifestDeleted);
      return Done(counts);
    }

    // -------------------------------------------------------------- the run

    /** Adopts the owner's registry, prepares, and extends the admission to the manifest's registry. */
    method PrepareUnderAdmission(hasFixedOwner: bool) returns (r: Reply<Manifest>)
      requires Valid() && MayPrepare() && !W().news.asked
      modifies this`log
      ensures Valid()
      ensures r.Done? ==> Still(W(), old(W()).(papers := old(W()).papers.(prepared := Some(r.value))))
      ensures r.Threw? && r.error.lacksPrepare ==> Still(W(), old(W())) && W().news.rejected == Some(r.error)
      ensures r.Threw? ==> Troubled(log) && W() == old(W()).(news := W().news, papers := W().papers)
    {
      hide Safe, WorldAfter, Allowed, After, Earned, Troubled, Vetted;
      if hasFixedOwner {
        var _ :- Call();
      }
      var adopted: bool :| true;
      if adopted {
        var _ :- Call();
      }
      var manifest :- PrepareConnected(hasFixedOwner);
      if manifest.registryDir.Some? {
        var extended := Call();
        if extended.Threw? {
          return Threw(DaemonFailure(false, extended.error.message));
        }
      }
      return Done(manifest);
    }

    /** Asks a reachable predecessor to prepare; an idle one that cannot is let go without a manifest. */
    method Prepare(mayHaveBusySessions: bool, hasFixedOwner: bool) returns (r: Reply<Option<Manifest>>)
      requires Valid() && MayPrepare() && !W().news.asked
      requires W().pred.probe == Some(Reachable(mayHaveBusySessions))
      modifies this`log
      ensures Valid()
      ensures r.Done? && r.value.Some? ==>
                Still(W(), old(W()).(papers := old(W()).papers.(prepared := r.value)))
      ensures r.Done? && r.value.None? ==>
                !mayHaveBusySessions && Still(W(), old(W()).(pred := old(W()).pred.(unsupported := true)))
      ensures r.Threw? ==> Troubled(log) && W() == old(W()).(news := W().news, papers := W().papers)
    {
      hide Safe, WorldAfter, Earned, Troubled, Vetted;
      var attempt := PrepareUnderAdmission(hasFixedOwner);
      if attempt.Done? {
        return Done(Some(attempt.value));
      }
      if mayHaveBusySessions || !attempt.error.lacksPrepare {
        return Threw(DaemonFailure(false, "Could not prepare daemon sessions"));
      }
      Do(PrepareUnsupported);
      return Done(None);
    }

    /** A predecessor that could not be stopped gets its sessions back, if that can be done. */
    method RecoverSurvivor(manifest: Option<Manifest>)
      requires Valid() && W().pred.survived && W().lease == Held && W().admission == Held
      requires W().papers == Papers(manifest, None, false) && status.phase == Stopping
      modifies this`status, this`log
      ensures Valid() && W().lease == Held && W().admission == Held
      ensures status.phase == Stopping && Grew(old(log), log)
      ensures Rescued(W())
    {
      hide Safe, WorldAfter, Earned, Troubled, Vetted, After;
      if manifest.Some? {
        var restored := RestoreAndDelete(manifest.value);
        if restored.Done? {
          var _ := Report(Stopping, restored.value);
        }
      }
    }

    /** The predecessor is gone, and nothing of the replacement has happened yet. */
    ghost predicate ReadyToReplace(predecessor: Option<Identity>, manifest: Option<Manifest>)
      reads this
    {
      && W().lease == Held && W().admission == Held && NoPredecessor(W()) && W().pred.greeted == predecessor
      && W().papers == Papers(manifest, None, false) && W().next == Successor(false, false, false)
      && !W().pred.survived
    }

    /** Prepares the running daemon, tells it to stop, and makes sure that it did. */
    method StopPredecessor(mayHaveBusySessions: bool, hasFixedOwner: bool) returns (r: Reply<Option<Manifest>>)
      requires Valid() && MayPrepare() && W().news == UNTOUCHED.news && W().papers == UNTOUCHED.papers
      requires W().next == UNTOUCHED.next && !W().pred.shutdown && !W().pred.gone && !W().pred.survived
      requires W().pred.probe == Some(Reachable(mayHaveBusySessions))
      modifies this`status, this`log
      ensures Valid() && W().lease == Held && W().admission == Held
      ensures status.phase == Preparing || status.phase == Stopping
      ensures r.Threw? ==> Troubled(log)
      ensures r.Done? ==> ReadyToReplace(old(W()).pred.greeted, r.value)
      ensures Rescued(W())
    {
      hide Safe, WorldAfter, Earned, Troubled, Vetted, After;
      var _ :- Report(Preparing, status.counts);
      var manifest :- Prepare(mayHaveBusySessions, hasFixedOwner);
      var total := if manifest.Some? then |manifest.value.sessions| else 0;
      var _ :- Report(Stopping, Counts(total, 0, 0, 0));
      r := ShutDown(manifest);
    }

    /** Tells the prepared predecessor to stop; one that is still there gets its sessions back. */
    method ShutDown(manifest: Option<Manifest>) returns (r: Reply<Option<Manifest>>)
      requires Valid() && status.phase == Stopping && W().lease == Held && W().admission == Held
      requires W().papers == Papers(manifest, None, false) && (manifest.Some? || W().pred.unsupported)
      requires W().next == UNTOUCHED.next && !W().pred.shutdown && !W().pred.gone && !W().pred.survived
      modifies this`status, this`log
      ensures Valid() && W().lease == Held && W().admission == Held && status.phase == Stopping
      ensures r.Threw? ==> Troubled(log)
      ensures r.Done? ==> r.value == manifest && ReadyToReplace(old(W()).pred.greeted, manifest)
      ensures Rescued(W())
    {
      hide Safe, WorldAfter, Earned, Allowed, After, Troubled, Vetted;
      ShuttingDown(W());
      Fenced(W());
      var _ :- CallWith(AdmissionRenewed);
      ShuttingDown(W());
      Asked(W());
      Do(ShutdownRequested);
      var gone :- AwaitShutdown();
      if !gone {
        RecoverSurvivor(manifest);
        return Threw(DaemonFailure(false, "Could not stop the predecessor daemon"));
      }
      return Done(manifest);
    }

    /** Whether the predecessor is gone: it stopped, or does not answer another probe. */
    method AwaitShutdown() returns (r: Reply<bool>)
      requires Valid() && W().admission == Held && W().pred.shutdown && !W().pred.gone && !W().pred.survived
      requires !W().next.started
      modifies this`log
      ensures Valid()
      ensures r.Threw? ==> Troubled(log) && Still(W(), old(W()))
      ensures r.Done? && r.value ==> W() == old(W()).(pred := old(W()).pred.(gone := true))
      ensures r.Done? && !r.value ==> W() == old(W()).(pred := old(W()).pred.(survived := true)) && Troubled(log)
    {
      hide Safe, WorldAfter, Earned, Allowed, After, Troubled, Vetted;
      var stopped: Reply<bool> :| true;
      var hasStopped :- Heard(stopped);
      ShuttingDown(W());
      Asked(W());
      Do(ShutdownAnswered(hasStopped));
      if hasStopped {
        return Done(true);
      }
      var stillReachable: Reply<bool> :| true;
      var remaining :- Heard(stillReachable);
      ShuttingDown(W());
      Asked(W());
      Do(ProbedAgain(remaining));
      return Done(!remaining);
    }

    /** Waits for the startup fence, confirms the admission one last time, and gives it up. */
    method GiveUpAdmission(ghost predecessor: Option<Identity>, ghost manifest: Option<Manifest>) returns (r: Reply<()>)
      requires Valid() && HoldsKnown() && ReadyToReplace(predecessor, manifest)
      modifies this
      ensures Valid() && HoldsKnown() && W().lease == Held && W().admission != Never
      ensures status.phase == StartingDaemon
      ensures r.Threw? ==> Troubled(log)
      ensures r.Done? ==>
                W() == old(W()).(admission := Released, renewed := false, next := old(W()).next.(fenced := true))
      ensures !W().pred.survived
    {
      hide Safe, WorldAfter, Earned, Allowed, After, Troubled, Vetted;
      GivingUpAdmission(W(), status.counts);
      Fenced(W());
      var _ :- Report(StartingDaemon, status.counts);
      var _ :- CallWith(FenceAwaited);
      GivingUpAdmission(W(), status.counts);
      Fenced(W());
      var _ :- CallWith(AdmissionRenewed);
      GivingUpAdmission(W(), status.counts);
      Fenced(W());
      Do(AdmissionReleased);
      shutdownAdmission := false;
      return Done(());
    }

    /** Connects to the started daemon and looks at its greeting, if one comes. */
    method Greet(predecessor: Option<Identity>) returns (r: Reply<Identity>)
      requires Valid() && W().lease == Held && W().next.started && W().pred.greeted == predecessor
      requires !W().pred.survived
      modifies this`log
      ensures Valid()
      ensures r.Done? ==> W() == old(W()).(next := old(W()).next.(validated := true))
      ensures r.Threw? ==> Still(W(), old(W())) && Troubled(log)
      ensures !W().pred.survived
    {
      hide Safe, WorldAfter, Earned, Troubled, ValidateReplacementDaemon, Allowed, After, Vetted;
      var _ :- Call();
      var answered: Reply<Hello> :| true;
      var hello :- Heard(answered);
      Greeting(W(), hello);
      Greeted(W(), hello);
      r := ValidateReplacementDaemon(order.expected, order.normalize, hello, predecessor);
      Do(if r.Done? then SuccessorValidated(hello) else GreetingRefused);
    }

    /** Starts the replacement and accepts it only with an identity of its own. */
    method StartReplacement(predecessor: Option<Identity>) returns (r: Reply<Identity>)
      requires Valid() && HoldsKnown() && W().lease == Held && W().admission == Released
      requires W().next == Successor(true, false, false) && NoPredecessor(W()) && W().pred.greeted == predecessor
      requires !W().pred.survived
      modifies this`log
      ensures Valid() && HoldsKnown() && W().lease == Held && W().admission == Released
      ensures r.Threw? ==> Troubled(log)
      ensures r.Done? ==> W() == old(W()).(next := Successor(true, true, true))
      ensures !W().pred.survived
    {
      hide Safe, WorldAfter, Earned, Troubled, ValidateReplacementDaemon, Allowed, After, Vetted;
      StartingReplacement(W());
      Restarted(W());
      var _ :- CallWith(ReplacementStarted);
      r := Greet(predecessor);
    }

    /** The sessions of a manifest, if there is one, come back on the successor, and the manifest goes. */
    method BringBack(manifest: Option<Manifest>) returns (r: Reply<Counts>)
      requires Valid() && W().lease == Held && W().next.validated && W().papers == Papers(manifest, None, false)
      requires !W().pred.survived
      modifies this`log
      ensures Valid()
      ensures r.Threw? ==> Still(W(), old(W())) && Troubled(log)
      ensures r.Done? && manifest.Some? ==>
                && AddsUp(r.value, manifest.value)
                && W() == old(W()).(papers := Papers(manifest, Some(r.value), true))
      ensures r.Done? && manifest.None? ==> W() == old(W()) && r.value == Counts(0, 0, 0, 0)
      ensures !W().pred.survived
    {
      hide Safe, WorldAfter, Earned, Troubled, Allowed, After, Vetted;
      if manifest.None? {
        return Done(Counts(0, 0, 0, 0));
      }
      r := RestoreAndDelete(manifest.value);
    }

    /** The last phase. */
    method RestoreOnSuccessor(manifest: Option<Manifest>) returns (r: Reply<()>)
      requires Valid() && W().lease == Held && W().admission == Released && W().next.validated
      requires W().papers == Papers(manifest, None, false)
      requires !W().pred.survived
      modifies this`status, this`log
      ensures Valid() && W().lease == Held && W().admission == Released
      ensures r.Threw? ==> Troubled(log)
      ensures r.Done? ==>
                && status.phase == Complete
                && (if manifest.Some? then AddsUp(status.counts, manifest.value)
                    else status.counts == Counts(0, 0, 0, 0))
      ensures !W().pred.survived
    {
      hide Safe, WorldAfter, Earned, Troubled, Allowed, After, Vetted;
      Finishing(W(), status.counts);
      var _ :- Report(Restoring, status.counts);
      var counts :- BringBack(manifest);
      Finishing(W(), counts);
      r := Report(Complete, counts);
    }

    /** A reachable daemon is greeted, prepared and stopped. */
    method TakeOver(mayHaveBusySessions: bool) returns (r: Reply<(Option<Identity>, Option<Manifest>)>)
      requires Valid() && status.phase == Starting
      requires W() == UNTOUCHED.(lease := Held, admission := Held,
                                 pred := UNTOUCHED.pred.(probe := Some(Reachable(mayHaveBusySessions))))
      modifies this`status, this`log
      ensures Valid() && W().lease == Held && W().admission == Held && status.phase != Complete
      ensures r.Threw? ==> Troubled(log)
      ensures r.Done? ==> ReadyToReplace(r.value.0, r.value.1)
      ensures Rescued(W())
    {
      hide Safe, WorldAfter, Earned, Troubled, ProcessIdentity, Vetted;
      var _ :- Call();
      var answered: Reply<Hello> :| true;
      var hello :- Heard(answered);
      Do(PredecessorGreeted(hello));
      var predecessor := ProcessIdentity(hello);
      var hasFixedOwner: bool :| true;
      var manifest :- StopPredecessor(mayHaveBusySessions, hasFixedOwner);
      return Done((predecessor, manifest));
    }

    /** Without a daemon there is work only if an earlier attempt left a manifest with sessions. */
    method PickUp() returns (r: Reply<Option<Manifest>>)
      requires Valid() && status.phase == Starting
      requires W() == UNTOUCHED.(lease := Held, admission := Held, pred := UNTOUCHED.pred.(probe := Some(Unreachable)))
      modifies this`log
      ensures Valid()
      ensures r.Threw? ==> Troubled(log) && W().lease == Held && W().admission == Held
      ensures r.Done? && r.value.Some? ==> HasSessions(r.value) && ReadyToReplace(None, r.value)
      ensures r.Done? && r.value.None? ==>
                Still(W(), old(W())) && W().news.left.Some? && !HasSessions(W().news.left.value)
      ensures Rescued(W())
    {
      hide Safe, WorldAfter, Earned, Troubled, Vetted;
      var manifest := TryReadPreparedManifest();
      if manifest.None? || |manifest.value.sessions| == 0 {
        return Done(None);
      }
      Do(ManifestPrepared(manifest.value));
      if manifest.value.registryDir.Some? {
        var _ :- Call();
      }
      return Done(manifest);
    }

    /** Everything between the acquisition of the admission and its release. */
    method UnderLease() returns (r: Reply<()>)
      requires Valid() && HoldsKnown() && W() == UNTOUCHED.(lease := Held) && status.phase == Starting
      modifies this
      ensures Valid() && HoldsKnown() && W().lease == Held
      ensures r.Threw? ==> Troubled(log)
      ensures r.Done? ==> status.phase == Complete || status.phase == Skipped
      ensures Rescued(W())
    {
      hide Safe, WorldAfter, Earned, Troubled, Allowed, After, Vetted;
      Beginning(W(), Unreachable, status.counts);
      Begun(W(), Unreachable);
      var _ :- CallWith(AdmissionAcquired);
      shutdownAdmission := true;
      var probe :- ProbeDaemon();
      if probe.Reachable? {
        var taken :- TakeOver(probe.mayHaveBusySessions);
        r := Replace(taken.0, taken.1);
      } else {
        var manifest :- PickUp();
        if manifest.None? {
          Beginning(W(), Unreachable, status.counts);
          r := Report(Skipped, status.counts);
          return;
        }
        r := Replace(None, manifest);
      }
    }

    /** The second half: the admission is given up, the replacement started, and the sessions brought back. */
    method Replace(predecessor: Option<Identity>, manifest: Option<Manifest>) returns (r: Reply<()>)
      requires Valid() && HoldsKnown() && ReadyToReplace(predecessor, manifest)
      modifies this
      ensures Valid() && HoldsKnown() && W().lease == Held
      ensures r.Threw? ==> Troubled(log)
      ensures r.Done? ==> status.phase == Complete
      ensures !W().pred.survived
    {
      hide Safe, WorldAfter, Earned, Troubled, Allowed, After, Vetted;
      var _ :- GiveUpAdmission(predecessor, manifest);
      var _ :- StartReplacement(predecessor);
      r := RestoreOnSuccessor(manifest);
    }

    /** The body of the outer `try`: take the lease, or follow the coordinator that has it. */
    method TryRun() returns (r: Reply<()>)
      requires Valid() && HoldsKnown() && W() == UNTOUCHED && status.phase == Starting
      modifies this
      ensures Valid() && HoldsKnown()
      ensures r.Done? ==> status.phase == Complete || status.phase == Skipped || StatusCopied in log
      ensures r.Threw? ==> Troubled(log)
      ensures Rescued(W())
    {
      hide Safe, WorldAfter, Earned, Troubled, Vetted;
      var acquired: Reply<bool> :| true;
      var mine :- Heard(acquired);
      if !mine {
        var followed: Reply<Status> :| true;
        var activeStatus :- Heard(followed);
        Do(StatusCopied);
        status := activeStatus;
        r := Call();
        return;
      }
      Do(LeaseAcquired);
      lease := true;
      r := UnderLease();
    }

    /** The `finally`: whatever is still held is released, the admission first. */
    method GiveBack()
      requires Valid() && HoldsKnown()
      requires Rescued(W())
      modifies this`log, this`lease, this`shutdownAdmission
      ensures Valid() && W().lease != Held && W().admission != Held
      ensures Grew(old(log), log)
    {
      hide Safe, WorldAfter, Earned, Troubled, Vetted;
      if shutdownAdmission {
        Do(AdmissionReleased);
        shutdownAdmission := false;
      }
      if lease {
        Do(LeaseReleased);
        lease := false;
      }
    }

    /**
     * `runDaemonUpdateRestartCoordinator`. On every path each hold that was acquired is given back,
     * the admission before the lease, and a status of `complete` has been earned by this run or was
     * copied from the coordinator that was already running. A run of its own ends complete, skipped or
     * failed, and it fails or throws only if a call was rejected, the new daemon's greeting was refused, or
     * the predecessor would not go.
     */
    method RunCoordinator() returns (r: Reply<Status>)
      requires Valid() && HoldsKnown() && log == [] && status.phase == Starting
      modifies this
      ensures Valid() && W().lease != Held && W().admission != Held
      ensures Count(log, LeaseReleased) == Count(log, LeaseAcquired) <= 1
      ensures Count(log, AdmissionReleased) == Count(log, AdmissionAcquired) <= 1
      ensures r.Done? && (r.value.phase == Complete || r.value.phase == Skipped) ==> Earned(log, r.value)
      ensures r.Done? ==> r.value == status
      ensures r.Done? ==> r.value.phase in {Complete, Skipped, FailedPhase} || StatusCopied in log
      ensures r.Threw? ==> Troubled(log)
      ensures r.Done? && r.value.phase == FailedPhase ==> Troubled(log) || StatusCopied in log
    {
      hide Safe, WorldAfter, Count, Earned, After, Allowed, Troubled, Vetted;
      NothingDone();
      var attempt := TryRun();
      FailureMayBeReported(W(), status.counts);
      var failedReport: Reply<()> := Done(());
      if attempt.Threw? {
        failedReport := Report(FailedPhase, status.counts);
      }
      GiveBack();
      HoldsAreReleasedOnce(log);
      var _ :- failedReport;
      return Done(status);
    }
  }
}
