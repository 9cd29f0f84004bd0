/**
 What becomes of a root whose RPC is rejected: resent, fenced, or given up with a
 failure final, and what the driver has seen of the root by then.
 */
module RunnerRejection {
  import opened Options
  import opened GroupIdentity
  import opened RunnerSteps
  import opened RunnerInvariant
  import opened RunnerGate
  import opened RunnerSteering
  import opened RunnerAnswers

  // ---------------------------------------------------------------------------
  // What leaves the request as it is
  // ---------------------------------------------------------------------------

  /** The request was neither answered nor seen to start, and names the same native
      turn, unless the turn is settled. */
  predicate SameRequest(s: State, r: State) {
    s.turn.Some? ==> r.turn.Some? && r.turn.value.request == s.turn.value.request && SameNative(s.turn.value, r.turn.value)
  }

  predicate SameNative(t: Turn, u: Turn) {
    !u.settlement.completed ==>
      && !t.settlement.completed && u.identity.nativeId == t.identity.nativeId
      && (t.identity.canonical.Some? ==> u.identity.canonical == t.identity.canonical)
  }

  lemma SettlingKeepsRequest(s: State, native: NativeTurn)
    requires s.turn.Some?
    ensures SameRequest(s, SettleSteered(s, native))
  {
    var verdict := VerifyGroup(SentIds(s.turn.value.group.members), native);
    if verdict.Mismatch? {
      ConflictKeepsRequest(s, verdict.reason);
    }
  }

  lemma ConflictKeepsRequest(s: State, reason: Reason)
    requires s.turn.Some?
    ensures SameRequest(s, ReportConflict(s, reason))
  {
  }

  lemma CompleteKeepsRequest(s: State, native: NativeTurn, at: Option<nat>)
    requires s.turn.Some?
    ensures SameRequest(s, CompleteFromNative(s, native, at))
  {
  }

  lemma BufferedKeepsRequest(s: State)
    requires s.turn.Some? && s.turn.value.settlement.terminal.Some?
    ensures SameRequest(s, SettleBuffered(s))
  {
    SettlingKeepsRequest(s, s.turn.value.settlement.terminal.value);
  }

  lemma ScanKeepsRequest(s: State, keepPending: bool, now: int)
    requires s.turn.Some?
    ensures SameRequest(s, StartSingleScan(s, keepPending, now))
  {
  }

  lemma GroupCompletionKeepsRequest(s: State, id: Option<Id>, native: NativeTurn)
    requires s.turn.Some?
    ensures SameRequest(s, GroupCompleted(s, id, native))
  {
    SettlingKeepsRequest(WithTurn(s, BufferCompletion(s.turn.value, id, native)), native);
  }

  lemma SingleCompletionKeepsRequest(s: State, id: Option<Id>, native: NativeTurn)
    requires s.turn.Some?
    ensures SameRequest(s, SingleCompleted(s, id, native))
  {
    ScanKeepsRequest(s, false, 0);
  }

  lemma CompletionKeepsRequest(s: State, id: Option<Id>, native: NativeTurn)
    requires s.turn.Some?
    ensures SameRequest(s, OnCompleted(s, id, native))
  {
    var s1 := s.(nativeActive := Released(s, id));
    GroupCompletionKeepsRequest(s1, id, native);
    SingleCompletionKeepsRequest(s1, id, native);
  }

  lemma RejectedSteerKeepsRequest(s: State)
    requires s.steer.Some?
    ensures SameRequest(s, OnSteerReply(s, SteerRejected))
  {
    if SteerIsLive(s) {
      var s1 := SteerOver(s);
      var s2 := WithTurn(s1, s1.turn.value.(group := s1.turn.value.group.(closed := true)));
      if s2.turn.value.settlement.completionSeen && s2.turn.value.settlement.terminal.Some? {
        BufferedKeepsRequest(s2);
      }
    }
  }

  lemma AcceptedSteerKeepsRequest(s: State)
    requires s.steer.Some? && s.queue != []
    ensures var s1 := SteerAccepted(s);
      SameRequest(s, TryAdmit(s1)) && (SteerIsLive(s) ==> SameRequest(s, ResumeBuffered(s1)))
  {
    var s1 := SteerAccepted(s);
    if SteerIsLive(s) && CanResume(s1) {
      BufferedKeepsRequest(s1);
    }
  }

  lemma ReplyKeepsRequest(s: State, reply: SteerReply)
    requires s.steer.Some?
    ensures SameRequest(s, OnSteerReply(s, reply))
  {
    match reply
    case SteerUnknown =>
    case SteerRejected => RejectedSteerKeepsRequest(s);
    case SteerTurn(turnId) =>
      if SteerMatches(s, turnId) {
        AcceptedSteerKeepsRequest(s);
      }
  }

  lemma HistoryKeepsRequest(s: State, history: seq<NativeTurn>, now: int)
    requires s.turn.Some?
    ensures SameRequest(s, OnHistory(s, history, now))
  {
    match s.turn.value.settlement.scan
    case NoScan =>
    case SingleScan(keep) => SingleHistoryKeepsRequest(s, history, keep, now);
    case GroupScan =>
      var matches := GroupMatches(history, SentIds(s.turn.value.group.members));
      ConflictKeepsRequest(s, if |matches| == 0 then NoMatch else ManyMatches);
  }

  lemma SingleHistoryKeepsRequest(s: State, history: seq<NativeTurn>, keepPending: bool, now: int)
    requires s.turn.Some?
    ensures SameRequest(s, OnSingleScan(s, history, keepPending, now))
  {
    var matches := SingleMatches(history, s.turn.value.clientId);
    if |matches| == 1 {
      CompleteKeepsRequest(s, matches[0], Some(Exact(matches[0], s.turn.value.clientId)[0]));
    }
    ConflictKeepsRequest(s, ClientIdRepeated);
    ConflictKeepsRequest(s, ManyMatches);
  }

  /** While the root RPC is unanswered, only a `turn/started` can add to it. */
  lemma OtherStepsKeepRequest(s: State, step: Step)
    requires Shaped(s) && s.point.AwaitRoot? && !step.RootResponse? && !step.RootError? && !step.TurnStarted?
    ensures SameRequest(s, Next(s, step)) && Next(s, step).point == s.point
  {
    if Enabled(s, step) {
      match step
      case Enqueue(line) => EnqueueKeepsRequest(s, line);
      case SteerReplied(reply) =>
        ReplyTakesHead(s, reply);
        ReplyKeepsRequest(s, reply);
      case TurnCompleted(id, native) =>
        TurnCompletionStaysOut(s, id, native);
        CompletionKeepsRequest(s, id, native);
      case HistoryScanned(history, now) =>
        HistoryStaysOut(s, history, now);
        HistoryKeepsRequest(s, history, now);
      case HistoryFailed => ConflictKeepsRequest(s, LookupFailed);
      case _ =>
    }
  }

  lemma EnqueueKeepsRequest(s: State, line: Line)
    requires s.point.AwaitRoot?
    ensures SameRequest(s, OnEnqueue(s, line)) && OnEnqueue(s, line).point == s.point
  {
    EnqueueGate(s, line);
  }

  // ---------------------------------------------------------------------------
  // Whether the root was seen to start
  // ---------------------------------------------------------------------------

  /** A `turn/started` is the active turn's own: it names its native turn, or holds
      its message where no native turn was known, and contradicts no proof. */
  predicate StartsRoot(t: Turn, id: Id, native: NativeTurn) {
    if |Exact(native, t.clientId)| == 1
    then (t.identity.canonical.None? || t.identity.canonical == Some(id))
         && (t.identity.nativeId.None? || t.identity.nativeId == Some(id))
    else t.identity.nativeId == Some(id)
  }

  /** With this step, the native turn of the root is known to run. */
  function Sighting(s: State, step: Step, before: bool): bool {
    match step
    case Launch => if s.point.Launching? then s.nativeActive.Some? else before
    case RootError(failure) => before && !Restarts(s, failure)
    case TurnStarted(id, native) => before || (id.Some? && s.turn.Some? && StartsRoot(s.turn.value, id.value, native))
    case _ => before
  }

  function Sighted(config: Config, steps: seq<Step>): bool {
    if steps == [] then false
    else
      var n := |steps| - 1;
      Sighting(Run(Init(config), steps[..n]), steps[n], Sighted(config, steps[..n]))
  }

  predicate SameButStarted(t: Turn, u: Turn) {
    && u.request == t.request.(serverStarted := u.request.serverStarted)
    && (!u.settlement.completed ==>
          && !t.settlement.completed
          && (u.identity.nativeId == t.identity.nativeId
              || (t.identity.nativeId.None? && u.identity.nativeId == u.identity.canonical))
          && (t.identity.canonical.Some? ==> u.identity.canonical == t.identity.canonical))
  }

  lemma StartSights(s: State, id: Option<Id>, native: NativeTurn)
    requires s.turn.Some?
    ensures var r := OnStarted(s, id, native, false);
      && r.turn.Some? && r.point == s.point && SameButStarted(s.turn.value, r.turn.value)
      && (r.turn.value.request.serverStarted <==>
            s.turn.value.request.serverStarted || (id.Some? && StartsRoot(s.turn.value, id.value, native)))
  {
    StartStaysOut(s, id, native, false);
    if id.Some? {
      TrackedSights(s.(nativeActive := id), id.value, native);
    }
  }

  lemma AdmitKeepsRequest(s: State)
    ensures SameRequest(s, TryAdmit(s))
  {
  }

  lemma TrackSights(s: State, id: Id, native: NativeTurn)
    requires s.turn.Some?
    ensures SameButStarted(s.turn.value, TrackStarted(s, id, native).turn.value)
    ensures var r := TrackStarted(s, id, native);
      r.turn.value.request.serverStarted <==> s.turn.value.request.serverStarted || s.turn.value.identity.nativeId == Some(id)
  {
    AdmitKeepsRequest(WithTurn(s, s.turn.value.(request := s.turn.value.request.(serverStarted := true))));
  }

  lemma ProofSights(s: State, id: Id)
    requires s.turn.Some?
    ensures var (s1, proceed) := ProveExact(s, id, ExactStarted);
      && s1.turn.Some? && s1.turn.value.request == s.turn.value.request
      && (proceed ==> s1.turn.value.identity.canonical == Some(id) && s1.turn.value.settlement == s.turn.value.settlement)
      && (!proceed ==> s1.turn.value.settlement.completed)
      && s1.turn.value.identity.nativeId == s.turn.value.identity.nativeId
      && (proceed <==> s.turn.value.identity.canonical.None? || s.turn.value.identity.canonical == Some(id))
  {
  }

  lemma TrackedSights(s: State, id: Id, native: NativeTurn)
    requires s.turn.Some?
    ensures SameButStarted(s.turn.value, Tracked(s, id, native).turn.value)
    ensures var r := Tracked(s, id, native);
      r.turn.value.request.serverStarted <==> s.turn.value.request.serverStarted || StartsRoot(s.turn.value, id, native)
  {
    if |Exact(native, s.turn.value.clientId)| != 1 {
      TrackSights(s, id, native);
    } else {
      ProofSights(s, id);
      var (s1, proceed) := ProveExact(s, id, ExactStarted);
      TrackSights(WithTurn(s1, OpenStarted(s1.turn.value, id)), id, native);
    }
  }

  /** No native turn was active when the turn was launched. */
  function LaunchedFresh(config: Config, steps: seq<Step>): bool {
    if steps == [] then false
    else
      var n := |steps| - 1;
      var s := Run(Init(config), steps[..n]);
      if steps[n].Launch? && s.point.Launching? then s.nativeActive.None? else LaunchedFresh(config, steps[..n])
  }

  /** The root of an unanswered request is marked as started exactly if it was
      sighted; a request into a native turn counts as that. Its response is a
      barrier exactly if it was launched as a `turn/start`. */
  predicate Marks(s: State, sighted: bool, asStart: bool) {
    s.point.AwaitRoot? && s.turn.Some? ==>
      && (s.turn.value.request.serverStarted <==> sighted) && (s.point.call.expected.Some? ==> sighted)
      && !s.turn.value.request.accepted && (s.turn.value.request.pending <==> asStart)
      && (s.turn.value.request.kind == SteerRequest <==> s.point.call.expected.Some?)
      && (!s.turn.value.settlement.completed ==> Knows(s.turn.value, s.point.call.expected))
  }

  /** A root sent into a native turn is known by that turn; any other one at most by
      the turn an exact `turn/started` has proven. */
  predicate Knows(t: Turn, expected: Option<Id>) {
    if expected.Some? then t.identity.nativeId == expected
    else t.identity.nativeId.None? || t.identity.nativeId == t.identity.canonical
  }

  lemma ErrorMarks(s: State, failure: RpcFailure, sighted: bool, asStart: bool)
    requires Shaped(s) && s.point.AwaitRoot? && Marks(s, sighted, asStart)
    ensures Marks(OnRootError(s, failure), sighted && !Restarts(s, failure), asStart)
  {
    RejectionGate(s, failure);
  }

  lemma StepMarks(s: State, step: Step, sighted: bool, asStart: bool)
    requires Shaped(s) && Marks(s, sighted, asStart)
    ensures Marks(Next(s, step), Sighting(s, step, sighted),
                  if step.Launch? && s.point.Launching? then s.nativeActive.None? else asStart)
  {
    if step.Launch? {
    } else if step.RootError? {
      if Enabled(s, step) {
        ErrorMarks(s, step.failure, sighted, asStart);
      }
    } else if !s.point.AwaitRoot? {
      RootStays(s, step);
    } else if step.RootResponse? {
      ResponseStaysOut(s, step.id, step.now);
    } else if step.TurnStarted? {
      StartSights(s, step.id, step.turn);
    } else {
      OtherStepsKeepRequest(s, step);
    }
  }

  /** Over every run: what the driver knows of a root whose RPC is unanswered. */
  lemma {:induction false} RequestIsAsSeen(config: Config, steps: seq<Step>)
    ensures Marks(Run(Init(config), steps), Sighted(config, steps), LaunchedFresh(config, steps))
  {
    if steps != [] {
      var n := |steps| - 1;
      RequestIsAsSeen(config, steps[..n]);
      RunShaped(config, steps[..n]);
      StepMarks(Run(Init(config), steps[..n]), steps[n], Sighted(config, steps[..n]), LaunchedFresh(config, steps[..n]));
    }
  }

  // ---------------------------------------------------------------------------
  // The rejection
  // ---------------------------------------------------------------------------

  /** The native turn that the root was to be steered into is over: start instead. */
  predicate StartsInstead(s: State, call: RootCall, failure: RpcFailure) {
    call.expected.Some? && !call.fellBack && s.nativeActive.None? && failure.serverError && failure.expectedTurnInactive
  }

  /** The structured input is not supported: send the plain form, once. */
  predicate SendsPlainly(call: RootCall, sighted: bool, failure: RpcFailure) {
    failure.capability && call.structured && !call.retried && (call.expected.Some? || !sighted)
  }

  /** The server may have taken the root, so it cannot be given up. */
  predicate MayBeTaken(t: Turn, sighted: bool, failure: RpcFailure) {
    sighted || t.identity.proof.Some? || t.identity.canonical.Some? || |t.group.members| > 1 || !failure.serverError
  }

  /** Over every run: a rejected root is started instead, sent again, fenced because
      the server may have taken it, or, being seen nowhere, given up with one failure
      final; a request into a native turn is never given up. */
  lemma {:induction false} RejectionDecides(config: Config, steps: seq<Step>, failure: RpcFailure)
    requires Run(Init(config), steps).point.AwaitRoot?
    ensures Run(Init(config), steps).turn.Some?
    ensures var s := Run(Init(config), steps); var r := Next(s, RootError(failure));
      var call, sighted := s.point.call, Sighted(config, steps);
      if StartsInstead(s, call, failure) then
        r.trace.sends == s.trace.sends + [StartSent(call.input)] && r.finals == s.finals && r.fenced == s.fenced
      else if SendsPlainly(call, sighted, failure) then
        && r.trace.sends == s.trace.sends
             + [if call.expected.Some? then SteerSent(call.input, call.expected.value) else StartSent(call.input)]
        && r.finals == s.finals && r.fenced == s.fenced && r.cleanInputUnsupported
      else
        && r.trace.sends == s.trace.sends
        && if MayBeTaken(s.turn.value, sighted, failure) then r.fenced && r.finals == s.finals
           else if s.fenced then r.fenced && r.finals == s.finals
           else
             && !r.fenced && call.expected.None?
             && r.finals == s.finals + [Final(call.input, RunnerFailure, RunnerError)]
  {
    RunShaped(config, steps);
    RequestIsAsSeen(config, steps);
    ErrorDecides(Run(Init(config), steps), failure);
  }

  lemma ErrorDecides(s: State, failure: RpcFailure)
    requires Shaped(s) && s.point.AwaitRoot?
    ensures var r, call, sighted := OnRootError(s, failure), s.point.call, s.turn.value.request.serverStarted;
      if StartsInstead(s, call, failure) then
        r.trace.sends == s.trace.sends + [StartSent(call.input)] && r.finals == s.finals && r.fenced == s.fenced
      else if SendsPlainly(call, sighted, failure) then
        && r.trace.sends == s.trace.sends
             + [if call.expected.Some? then SteerSent(call.input, call.expected.value) else StartSent(call.input)]
        && r.finals == s.finals && r.fenced == s.fenced && r.cleanInputUnsupported
      else
        && r.trace.sends == s.trace.sends
        && if MayBeTaken(s.turn.value, sighted, failure) then r.fenced && r.finals == s.finals
           else if s.fenced then r.fenced && r.finals == s.finals
           else !r.fenced && r.finals == s.finals + [Final(call.input, RunnerFailure, RunnerError)]
  {
    if !s.fenced {
      LoopGate(s.(turn := None, point := Returned, finals := s.finals + [Final(s.point.call.input, RunnerFailure, RunnerError)]));
    }
  }

  /** No other step gives an input up. */
  lemma OnlyRejectionGivesUp(s: State, step: Step)
    requires !step.RootError?
    ensures forall k :: |s.finals| <= k < |Next(s, step).finals| ==> Next(s, step).finals[k].disposition != RunnerFailure
  {
  }
}
