/**
 What the driver sends as a steer: inputs that may be steered, unless a native turn
 starts between the gate of the drain loop and the start of the turn; and never
 into a group that was closed or settled.
 */
module RunnerSteering {
  import opened Options
  import opened GroupIdentity
  import opened RunnerSteps
  import opened RunnerInvariant
  import opened RunnerGate

  // ---------------------------------------------------------------------------
  // What is steered into a native turn
  // ---------------------------------------------------------------------------

  /** Whatever is sent is a steer of an input that may be steered, into the native
      turn that the active turn is proven to have. */
  predicate SteersOnly(s: State, r: State) {
    && s.trace.sends <= r.trace.sends
    && forall k :: |s.trace.sends| <= k < |r.trace.sends| ==> FollowsUp(r, r.trace.sends[k])
  }

  predicate FollowsUp(s: State, send: Send) {
    && send.SteerSent? && send.input.steerable
    && s.turn.Some? && s.turn.value.identity.canonical == Some(send.target)
  }

  lemma SteersOn(s: State, m: State, r: State)
    requires SteersOnly(s, m) && SteersOnly(m, r) && KeepsProof(m, r)
    ensures SteersOnly(s, r)
  {
  }

  lemma AdmitSteersOnly(s: State)
    ensures SteersOnly(s, TryAdmit(s))
  {
  }

  lemma SettlingSteersNothing(s: State, native: NativeTurn)
    requires s.turn.Some?
    ensures SettleSteered(s, native).trace.sends == s.trace.sends
    ensures s.turn.value.settlement.terminal.Some? ==> SettleBuffered(s).trace.sends == s.trace.sends
    ensures SettleAfterResponse(s).trace.sends == s.trace.sends
  {
  }

  lemma ScanSteersNothing(s: State, keepPending: bool, now: int)
    requires s.turn.Some?
    ensures StartSingleScan(s, keepPending, now).trace.sends == s.trace.sends
  {
  }

  lemma TrackSteersOnly(s: State, id: Id, native: NativeTurn)
    requires s.turn.Some?
    ensures SteersOnly(s, TrackStarted(s, id, native))
  {
    var t := s.turn.value;
    AdmitSteersOnly(WithTurn(s, t.(request := t.request.(serverStarted := true))));
  }

  lemma StartSteersOnly(s: State, id: Option<Id>, native: NativeTurn, replayed: bool)
    ensures SteersOnly(s, OnStarted(s, id, native, replayed))
  {
    var s1 := if id.Some? && (!replayed || s.nativeActive.None? || s.nativeActive == id) then s.(nativeActive := id) else s;
    if s1.turn.Some? && id.Some? {
      TrackedSteersOnly(s1, id.value, native);
    }
  }

  lemma TrackedSteersOnly(s: State, id: Id, native: NativeTurn)
    requires s.turn.Some?
    ensures SteersOnly(s, Tracked(s, id, native))
  {
    var (s1, proceed) := ProveExact(s, id, ExactStarted);
    assert s1.trace == s.trace && s1.turn.Some?;
    TrackSteersOnly(s, id, native);
    TrackSteersOnly(WithTurn(s1, OpenStarted(s1.turn.value, id)), id, native);
  }

  lemma CompletionSteersNothing(s: State, id: Option<Id>, native: NativeTurn)
    requires s.turn.Some?
    ensures OnCompleted(s, id, native).trace.sends == s.trace.sends
  {
    var s1 := s.(nativeActive := Released(s, id));
    GroupCompletionSteersNothing(s1, id, native);
    SingleCompletionSteersNothing(s1, id, native);
  }

  lemma GroupCompletionSteersNothing(s: State, id: Option<Id>, native: NativeTurn)
    requires s.turn.Some?
    ensures GroupCompleted(s, id, native).trace.sends == s.trace.sends
  {
    SettlingSteersNothing(WithTurn(s, BufferCompletion(s.turn.value, id, native)), native);
  }

  lemma SingleCompletionSteersNothing(s: State, id: Option<Id>, native: NativeTurn)
    requires s.turn.Some?
    ensures SingleCompleted(s, id, native).trace.sends == s.trace.sends
  {
    ScanSteersNothing(s, false, 0);
  }

  lemma {:induction false} ReplaySteersOnly(s: State, notes: seq<Notification>, now: int)
    requires s.turn.Some?
    ensures SteersOnly(s, ReplayAll(s, notes, now))
    decreases |notes|
  {
    if notes != [] {
      var m := ReplayOne(s, notes[0], now);
      match notes[0] {
        case StartedNote(id, native) => StartSteersOnly(s, Some(id), native, true);
        case ProgressNote(id, effect) => assert m.trace.sends == s.trace.sends;
      }
      ReplaySteersOnly(m, notes[1..], now);
      SteersOn(s, m, ReplayAll(m, notes[1..], now));
    }
  }

  lemma PendingSteersNothing(s: State, pending: seq<NativeTurn>, now: int)
    requires s.turn.Some?
    ensures SettlePending(s, pending, now).trace.sends == s.trace.sends
  {
    ScanSteersNothing(s, false, now);
    ScanSteersNothing(s, true, now);
  }

  lemma SettledSteersOnly(s: State, id: Option<Id>, now: int)
    requires s.turn.Some?
    ensures SteersOnly(s, Settled(s, id, now))
  {
    var b := Bound(s, id);
    if b.turn.value.settlement.terminal.Some? {
      SettlingSteersNothing(b, b.turn.value.settlement.terminal.value);
    }
    var s1 := SettleAfterResponse(b);
    assert s1.trace.sends == s.trace.sends;
    ReplaySteersOnly(WithTurn(s1, s1.turn.value.(buffers := s1.turn.value.buffers.(notes := []))), s1.turn.value.buffers.notes, now);
  }

  lemma ResponseSteersOnly(s: State, id: Option<Id>, now: int)
    requires s.point.AwaitRoot? && s.turn.Some?
    ensures SteersOnly(s, OnRootResponse(s, id, now))
  {
    var responseId := if id.Some? then id else s.turn.value.identity.nativeId;
    if !ResponseContradicts(s.turn.value, responseId) {
      var pending := s.turn.value.buffers.completions;
      var m := SettlePending(Settled(s, responseId, now), pending, now);
      SettledSteersOnly(s, responseId, now);
      PendingSteersNothing(Settled(s, responseId, now), pending, now);
      AdmitSteersOnly(m);
      SteersOn(s, m, TryAdmit(m));
    }
  }

  lemma ReplySteersOnly(s: State, reply: SteerReply)
    requires s.steer.Some?
    ensures SteersOnly(s, OnSteerReply(s, reply))
  {
    match reply
    case SteerUnknown =>
    case SteerRejected => RejectionSteersNothing(s);
    case SteerTurn(turnId) =>
      if SteerMatches(s, turnId) {
        AcceptanceSteersOnly(s);
      }
  }

  lemma RejectionSteersNothing(s: State)
    requires s.steer.Some?
    ensures OnSteerReply(s, SteerRejected).trace.sends == s.trace.sends
  {
    if SteerIsLive(s) {
      var s1 := SteerOver(s);
      var s2 := WithTurn(s1, s1.turn.value.(group := s1.turn.value.group.(closed := true)));
      if s2.turn.value.settlement.completionSeen && s2.turn.value.settlement.terminal.Some? {
        SettlingSteersNothing(s2, s2.turn.value.settlement.terminal.value);
      }
    }
  }

  lemma AcceptanceSteersOnly(s: State)
    requires s.steer.Some? && s.queue != []
    ensures var s1 := SteerAccepted(s);
      SteersOnly(s, TryAdmit(s1)) && (SteerIsLive(s) ==> ResumeBuffered(s1).trace.sends == s.trace.sends)
  {
    var s1 := SteerAccepted(s);
    if SteerIsLive(s) && CanResume(s1) {
      SettlingSteersNothing(s1, s1.turn.value.settlement.terminal.value);
    }
    AdmitSteersOnly(s1);
  }

  lemma HistorySteersNothing(s: State, history: seq<NativeTurn>, now: int)
    requires s.turn.Some?
    ensures OnHistory(s, history, now).trace.sends == s.trace.sends
  {
  }

  /** A step sends the root it launches or resends; besides, only steers of inputs
      that may be steered. */
  lemma {:induction false} StepSteersOnly(s: State, step: Step)
    requires !step.Launch? && !step.RootError?
    ensures SteersOnly(s, Next(s, step))
  {
    if Enabled(s, step) {
      match step
      case Enqueue(line) =>
        AdmitSteersOnly(Pushed(s, line));
        EnqueueGate(s, line);
      case RootResponse(id, now) => ResponseSteersOnly(s, id, now);
      case SteerReplied(reply) => ReplySteersOnly(s, reply);
      case TurnStarted(id, native) => StartSteersOnly(s, id, native, false);
      case TurnCompleted(id, native) =>
        if s.turn.Some? {
          CompletionSteersNothing(s, id, native);
        } else {
          CompletionGate(s, id, native);
        }
      case HistoryScanned(history, now) => HistorySteersNothing(s, history, now);
      case AfterTurn => LoopGate(s);
      case _ =>
    }
  }

  // ---------------------------------------------------------------------------
  // Inputs that are merged into a native turn behind the gate
  // ---------------------------------------------------------------------------

  /** Every steer that was sent carries an input that may be steered. */
  predicate SteersSteerable(s: State) {
    forall k :: 0 <= k < |s.trace.sends| && s.trace.sends[k].SteerSent? ==> s.trace.sends[k].input.steerable
  }

  /** A dequeued input that may not be steered meets a native turn when its own is
      started. */
  predicate MergesPlain(s: State, step: Step) {
    step.Launch? && s.point.Launching? && s.nativeActive.Some? && !s.point.next.steerable
  }

  /** A root that was merged that way may be resent, but it was sent before. */
  predicate RootSteered(s: State) {
    s.point.AwaitRoot? && s.point.call.expected.Some? && !s.point.call.input.steerable ==> !SteersSteerable(s)
  }

  lemma RootStays(s: State, step: Step)
    requires !step.Launch? && !step.RootError?
    ensures Next(s, step).point.AwaitRoot? ==> Next(s, step).point == s.point
  {
    if Enabled(s, step) {
      match step
      case Enqueue(line) => EnqueueGate(s, line);
      case RootResponse(id, now) => ResponseStaysOut(s, id, now);
      case SteerReplied(reply) => ReplyTakesHead(s, reply);
      case TurnStarted(id, native) => StartStaysOut(s, id, native, false);
      case TurnCompleted(id, native) =>
        if s.turn.Some? {
          TurnCompletionStaysOut(s, id, native);
        } else {
          CompletionGate(s, id, native);
        }
      case HistoryScanned(history, now) => HistoryStaysOut(s, history, now);
      case AfterTurn => LoopGate(s);
      case _ =>
    }
  }

  lemma LaunchMergesExactly(s: State)
    requires s.point.Launching?
    ensures var r := OnLaunch(s);
      && r.trace.sends == s.trace.sends
           + [if s.nativeActive.Some? then SteerSent(s.point.next, s.nativeActive.value) else StartSent(s.point.next)]
      && (SteersSteerable(s) ==> (SteersSteerable(r) <==> !MergesPlain(s, Launch)))
      && (!SteersSteerable(s) ==> !SteersSteerable(r)) && RootSteered(r)
  {
    var send := if s.nativeActive.Some? then SteerSent(s.point.next, s.nativeActive.value) else StartSent(s.point.next);
    assert OnLaunch(s).trace.sends == s.trace.sends + [send];
    assert (s.trace.sends + [send])[|s.trace.sends|] == send;
    assert forall k :: 0 <= k < |s.trace.sends| ==> (s.trace.sends + [send])[k] == s.trace.sends[k];
  }

  /** The root is resent as a start, or as the steer it was. */
  lemma ErrorResends(s: State, failure: RpcFailure)
    requires s.point.AwaitRoot? && s.turn.Some? && RootSteered(s)
    ensures var r := OnRootError(s, failure); (SteersSteerable(s) <==> SteersSteerable(r)) && RootSteered(r)
  {
    var r := OnRootError(s, failure);
    var call := s.point.call;
    var failed := s.(turn := None, point := Returned, finals := s.finals + [Final(call.input, RunnerFailure, RunnerError)]);
    LoopGate(failed);
    assert r.trace.sends == s.trace.sends || r.trace.sends == s.trace.sends + [StartSent(call.input)]
        || r.trace.sends == s.trace.sends + [RootSend(call)];
    if r.trace.sends != s.trace.sends {
      assert forall k :: 0 <= k < |s.trace.sends| ==> r.trace.sends[k] == s.trace.sends[k];
    }
  }

  lemma {:induction false} MergedExactly(s: State, step: Step)
    requires RootSteered(s)
    ensures RootSteered(Next(s, step))
    ensures SteersSteerable(Next(s, step)) <==> SteersSteerable(s) && !MergesPlain(s, step)
  {
    if step.Launch? && Enabled(s, step) {
      LaunchMergesExactly(s);
    } else if step.RootError? && Enabled(s, step) {
      ErrorResends(s, step.failure);
    } else if Enabled(s, step) {
      RootStays(s, step);
      StepSteersOnly(s, step);
      SteersNothingElse(s, Next(s, step));
    }
  }

  lemma SteersNothingElse(s: State, r: State)
    requires SteersOnly(s, r)
    ensures SteersSteerable(r) <==> SteersSteerable(s)
  {
    assert forall k :: 0 <= k < |s.trace.sends| ==> r.trace.sends[k] == s.trace.sends[k];
  }

  predicate MergesAt(config: Config, steps: seq<Step>, k: nat)
    requires k < |steps|
  {
    MergesPlain(Run(Init(config), steps[..k]), steps[k])
  }

  /** No input that may not be steered meets a native turn in the run. */
  ghost predicate NeverMerges(config: Config, steps: seq<Step>) {
    forall k: nat :: k < |steps| ==> !MergesAt(config, steps, k)
  }

  lemma MergesAtPrefix(config: Config, steps: seq<Step>, k: nat)
    requires k < |steps| - 1
    ensures MergesAt(config, steps[..|steps| - 1], k) == MergesAt(config, steps, k)
  {
    assert steps[..|steps| - 1][..k] == steps[..k];
  }

  lemma NeverMergesSnoc(config: Config, steps: seq<Step>)
    requires steps != []
    ensures var n := |steps| - 1;
      NeverMerges(config, steps) <==> NeverMerges(config, steps[..n]) && !MergesPlain(Run(Init(config), steps[..n]), steps[n])
  {
    var n := |steps| - 1;
    assert MergesAt(config, steps, n) == MergesPlain(Run(Init(config), steps[..n]), steps[n]);
    forall k: nat | k < n ensures MergesAt(config, steps[..n], k) == MergesAt(config, steps, k) {
      MergesAtPrefix(config, steps, k);
    }
  }

  lemma {:induction false} RunSteersRoot(config: Config, steps: seq<Step>)
    ensures RootSteered(Run(Init(config), steps))
  {
    if steps != [] {
      var n := |steps| - 1;
      RunSteersRoot(config, steps[..n]);
      MergedExactly(Run(Init(config), steps[..n]), steps[n]);
    }
  }

  /** In every run, only inputs that may be steered are sent as steers, if and only
      if no other input meets a native turn when its own turn is started. */
  lemma {:induction false} PlainMergedExactly(config: Config, steps: seq<Step>)
    ensures SteersSteerable(Run(Init(config), steps)) <==> NeverMerges(config, steps)
  {
    if steps != [] {
      var n := |steps| - 1;
      PlainMergedExactly(config, steps[..n]);
      RunSteersRoot(config, steps[..n]);
      MergedExactly(Run(Init(config), steps[..n]), steps[n]);
      NeverMergesSnoc(config, steps);
    }
  }

  /** A native turn starts while `next` is on its way from the queue to its start. */
  predicate StartsBehindGate(s: State, step: Step, next: Input) {
    step.TurnStarted? && step.id.Some? && s.point == Launching(next) && s.nativeActive.None?
  }

  lemma LaunchingStays(s: State, step: Step)
    requires Shaped(s) && s.point.Launching? && Next(s, step).point.Launching?
    ensures Next(s, step).point == s.point
    ensures s.nativeActive.None? && Next(s, step).nativeActive.Some? ==> step.TurnStarted? && step.id.Some?
  {
    if Enabled(s, step) {
      match step
      case Enqueue(line) => EnqueueGate(s, line);
      case SteerReplied(reply) => ReplyTakesHead(s, reply);
      case TurnStarted(id, native) => StartStaysOut(s, id, native, false);
      case TurnCompleted(id, native) => CompletionGate(s, id, native);
      case _ =>
    }
  }

  /** The gate itself lets no such input past: in every run, one that meets a native
      turn on its way was dequeued while none was active, and that turn, or one
      before it, started since. */
  lemma {:induction false} MergedBehindGate(config: Config, steps: seq<Step>)
    requires MergesPlain(Run(Init(config), steps), Launch)
    ensures exists k :: 0 <= k < |steps| && StartsBehindGate(Run(Init(config), steps[..k]), steps[k], Run(Init(config), steps).point.next)
  {
    var n := |steps| - 1;
    var m, s := Run(Init(config), steps[..n]), Run(Init(config), steps);
    RunShaped(config, steps[..n]);
    if m.point.Launching? {
      LaunchingStays(m, steps[n]);
      if m.nativeActive.Some? {
        MergedBehindGate(config, steps[..n]);
        var k :| 0 <= k < n && StartsBehindGate(Run(Init(config), steps[..n][..k]), steps[..n][k], m.point.next);
        assert steps[..n][..k] == steps[..k];
      } else {
        assert StartsBehindGate(m, steps[n], s.point.next);
      }
    } else {
      LeavesThroughGateExactly(m, steps[n]);
    }
  }

  // ---------------------------------------------------------------------------
  // A group that was closed or settled takes no one more
  // ---------------------------------------------------------------------------

  /** No steer is outstanding, and the group was closed, settled or fenced. */
  predicate Shut(t: Turn) {
    !t.group.steerInFlight && (t.group.closed || t.settlement.completed || t.phase == Closing || t.phase == Fenced)
  }

  predicate TurnStaysShut(t: Turn, u: Turn) {
    Shut(t) ==> Shut(u) && u.group.members == t.group.members
  }

  predicate StaysShut(s: State, r: State) {
    s.turn.Some? ==> r.turn.Some? && TurnStaysShut(s.turn.value, r.turn.value)
  }

  lemma AdmitStaysShut(s: State)
    ensures StaysShut(s, TryAdmit(s))
  {
  }

  lemma SettlingStaysShut(s: State, native: NativeTurn)
    requires s.turn.Some?
    ensures StaysShut(s, SettleSteered(s, native))
  {
    var verdict := VerifyGroup(SentIds(s.turn.value.group.members), native);
    if verdict.Mismatch? {
      ConflictStaysShut(s, verdict.reason);
    }
  }

  lemma BufferedStaysShut(s: State)
    requires s.turn.Some? && s.turn.value.settlement.terminal.Some?
    ensures StaysShut(s, SettleBuffered(s))
  {
    SettlingStaysShut(s, s.turn.value.settlement.terminal.value);
  }

  lemma ScanStaysShut(s: State, keepPending: bool, now: int)
    requires s.turn.Some?
    ensures StaysShut(s, StartSingleScan(s, keepPending, now))
  {
  }

  lemma CompleteStaysShut(s: State, native: NativeTurn, at: Option<nat>)
    requires s.turn.Some?
    ensures StaysShut(s, CompleteFromNative(s, native, at))
  {
  }

  lemma ConflictStaysShut(s: State, reason: Reason)
    requires s.turn.Some?
    ensures StaysShut(s, ReportConflict(s, reason))
  {
  }

  lemma TrackStaysShut(s: State, id: Id, native: NativeTurn)
    requires s.turn.Some?
    ensures StaysShut(s, TrackStarted(s, id, native))
  {
    AdmitStaysShut(WithTurn(s, s.turn.value.(request := s.turn.value.request.(serverStarted := true))));
  }

  lemma ProofStaysShut(s: State, id: Id, proof: Proof)
    requires s.turn.Some?
    ensures StaysShut(s, ProveExact(s, id, proof).0)
  {
  }

  lemma TrackedStaysShut(s: State, id: Id, native: NativeTurn)
    requires s.turn.Some?
    ensures StaysShut(s, Tracked(s, id, native))
  {
    var (s1, proceed) := ProveExact(s, id, ExactStarted);
    ProofStaysShut(s, id, ExactStarted);
    TrackStaysShut(s, id, native);
    TrackStaysShut(WithTurn(s1, OpenStarted(s1.turn.value, id)), id, native);
  }

  lemma StartStaysShut(s: State, id: Option<Id>, native: NativeTurn, replayed: bool)
    ensures StaysShut(s, OnStarted(s, id, native, replayed))
  {
    var s1 := if id.Some? && (!replayed || s.nativeActive.None? || s.nativeActive == id) then s.(nativeActive := id) else s;
    if s1.turn.Some? && id.Some? {
      TrackedStaysShut(s1, id.value, native);
    }
  }

  lemma GroupCompletionStaysShut(s: State, id: Option<Id>, native: NativeTurn)
    requires s.turn.Some?
    ensures StaysShut(s, GroupCompleted(s, id, native))
  {
    SettlingStaysShut(WithTurn(s, BufferCompletion(s.turn.value, id, native)), native);
  }

  lemma SingleCompletionStaysShut(s: State, id: Option<Id>, native: NativeTurn)
    requires s.turn.Some?
    ensures StaysShut(s, SingleCompleted(s, id, native))
  {
    if Upgrades(s.turn.value, id, native) {
      ProofStaysShut(s, id.value, ExactCompleted);
    } else {
      var exact := Exact(native, s.turn.value.clientId);
      CompleteStaysShut(s, native, if |exact| == 1 then Some(exact[0]) else None);
      ScanStaysShut(s, false, 0);
    }
  }

  lemma CompletionStaysShut(s: State, id: Option<Id>, native: NativeTurn)
    requires s.turn.Some?
    ensures StaysShut(s, OnCompleted(s, id, native))
  {
    var s1 := s.(nativeActive := Released(s, id));
    GroupCompletionStaysShut(s1, id, native);
    SingleCompletionStaysShut(s1, id, native);
  }

  lemma {:induction false} ReplayStaysShut(s: State, notes: seq<Notification>, now: int)
    requires s.turn.Some?
    ensures StaysShut(s, ReplayAll(s, notes, now))
    decreases |notes|
  {
    if notes != [] {
      match notes[0] {
        case StartedNote(id, native) => StartStaysShut(s, Some(id), native, true);
        case ProgressNote(id, effect) =>
      }
      ReplayStaysShut(ReplayOne(s, notes[0], now), notes[1..], now);
    }
  }

  lemma AfterResponseStaysShut(s: State)
    requires s.turn.Some?
    ensures StaysShut(s, SettleAfterResponse(s))
  {
    var s1 := ResumeBuffered(s);
    if CanResume(s) {
      BufferedStaysShut(s);
    }
    if SettlesBufferedCanonical(s.turn.value) {
      SettlingStaysShut(s1, s1.turn.value.settlement.terminal.value);
    }
  }

  lemma PendingStaysShut(s: State, pending: seq<NativeTurn>, now: int)
    requires s.turn.Some?
    ensures StaysShut(s, SettlePending(s, pending, now))
  {
    var exact := ExactMatches(pending, s.turn.value.clientId);
    var mine := NativeMatches(pending, s.turn.value.identity.nativeId);
    if |exact| == 1 {
      CompleteStaysShut(s, exact[0], Some(Exact(exact[0], s.turn.value.clientId)[0]));
    } else if |mine| == 1 {
      CompleteStaysShut(s, mine[0], None);
    }
    ConflictStaysShut(s, ManyMatches);
    ScanStaysShut(s, false, now);
    ScanStaysShut(s, true, now);
  }

  lemma SettledStaysShut(s: State, id: Option<Id>, now: int)
    requires s.turn.Some?
    ensures StaysShut(s, Settled(s, id, now))
  {
    var s1 := SettleAfterResponse(Bound(s, id));
    AfterResponseStaysShut(Bound(s, id));
    assert StaysShut(s, Bound(s, id));
    ReplayStaysShut(WithTurn(s1, s1.turn.value.(buffers := s1.turn.value.buffers.(notes := []))), s1.turn.value.buffers.notes, now);
  }

  lemma ShutOn(s: State, m: State, r: State)
    requires StaysShut(s, m) && StaysShut(m, r)
    ensures StaysShut(s, r)
  {
  }

  lemma AgreedResponseStaysShut(s: State, id: Option<Id>, pending: seq<NativeTurn>, now: int)
    requires s.turn.Some?
    ensures var m := SettlePending(Settled(s, id, now), pending, now);
      StaysShut(s, m) && StaysShut(s, TryAdmit(m))
  {
    var s1 := Settled(s, id, now);
    var m := SettlePending(s1, pending, now);
    SettledStaysShut(s, id, now);
    PendingStaysShut(s1, pending, now);
    AdmitStaysShut(m);
    ShutOn(s, s1, m);
    ShutOn(s, m, TryAdmit(m));
  }

  lemma ResponseStaysShut(s: State, id: Option<Id>, now: int)
    requires s.point.AwaitRoot? && s.turn.Some?
    ensures StaysShut(s, OnRootResponse(s, id, now))
  {
    var responseId := if id.Some? then id else s.turn.value.identity.nativeId;
    if !ResponseContradicts(s.turn.value, responseId) {
      AgreedResponseStaysShut(s, responseId, s.turn.value.buffers.completions, now);
    }
  }

  lemma ErrorStaysShut(s: State, failure: RpcFailure)
    requires s.point.AwaitRoot? && s.turn.Some?
    ensures OnRootError(s, failure).turn.Some? ==> TurnStaysShut(s.turn.value, OnRootError(s, failure).turn.value)
  {
    var failed := s.(turn := None, point := Returned, finals := s.finals + [Final(s.point.call.input, RunnerFailure, RunnerError)]);
    assert Drained(failed).turn.None?;
  }

  lemma EnqueueStaysShut(s: State, line: Line)
    ensures StaysShut(s, OnEnqueue(s, line))
  {
    AdmitStaysShut(Pushed(s, line));
    assert OnEnqueue(s, line).turn == (if line.Framed? then TryAdmit(Pushed(s, line)) else Pushed(s, line)).turn;
  }

  lemma ReplyStaysShut(s: State, reply: SteerReply)
    requires Shaped(s) && s.steer.Some?
    ensures StaysShut(s, OnSteerReply(s, reply))
  {
    if s.turn.Some? && Shut(s.turn.value) {
      assert !SteerIsLive(s);
      if s.queue != [] {
        AdmitStaysShut(SteerAccepted(s));
      }
    }
  }

  lemma HistoryStaysShut(s: State, history: seq<NativeTurn>, now: int)
    requires s.turn.Some?
    ensures StaysShut(s, OnHistory(s, history, now))
  {
    match s.turn.value.settlement.scan
    case NoScan =>
    case SingleScan(keep) => SingleHistoryStaysShut(s, history, keep, now);
    case GroupScan =>
      var matches := GroupMatches(history, SentIds(s.turn.value.group.members));
      ConflictStaysShut(s, if |matches| == 0 then NoMatch else ManyMatches);
  }

  lemma SingleHistoryStaysShut(s: State, history: seq<NativeTurn>, keepPending: bool, now: int)
    requires s.turn.Some?
    ensures StaysShut(s, OnSingleScan(s, history, keepPending, now))
  {
    var matches := SingleMatches(history, s.turn.value.clientId);
    if |matches| == 1 {
      CompleteStaysShut(s, matches[0], Some(Exact(matches[0], s.turn.value.clientId)[0]));
    }
  }

  /** In every reachable state: a turn whose group was closed or settled, with no
      steer outstanding, has no one else steered into it and keeps its members,
      whatever arrives. */
  lemma {:induction false} ShutGroupStaysShut(s: State, step: Step)
    requires Shaped(s) && s.turn.Some? && Shut(s.turn.value)
    requires Next(s, step).turn.Some? && Next(s, step).turn.value.epoch == s.turn.value.epoch
    ensures Shut(Next(s, step).turn.value) && Next(s, step).turn.value.group.members == s.turn.value.group.members
  {
    if Enabled(s, step) {
      match step
      case Enqueue(line) => EnqueueStaysShut(s, line);
      case RootResponse(id, now) => ResponseStaysShut(s, id, now);
      case RootError(failure) => ErrorStaysShut(s, failure);
      case SteerReplied(reply) => ReplyStaysShut(s, reply);
      case TurnStarted(id, native) => StartStaysShut(s, id, native, false);
      case TurnCompleted(id, native) => CompletionStaysShut(s, id, native);
      case HistoryScanned(history, now) => HistoryStaysShut(s, history, now);
      case Progress(id, effect, now) => ProgressStaysShut(s, id, effect, now);
      case _ => RestStaysShut(s, step);
    }
  }

  lemma ProgressStaysShut(s: State, id: Option<Id>, effect: ProgressEffect, now: int)
    ensures StaysShut(s, OnProgress(s, id, effect, now))
  {
  }

  lemma RestStaysShut(s: State, step: Step)
    requires Shaped(s) && s.turn.Some?
    requires step.Finalize? || step.AfterTurn? || step.IdleTimerFired? || step.Reauthenticated? || step.HistoryFailed?
          || step.Launch?
    ensures var r := Next(s, step);
      r.turn.Some? && r.turn.value.epoch == s.turn.value.epoch ==> TurnStaysShut(s.turn.value, r.turn.value)
  {
    if step.HistoryFailed? {
      ConflictStaysShut(s, LookupFailed);
    }
  }

  // ---------------------------------------------------------------------------
  // The reply to a steer
  // ---------------------------------------------------------------------------

  /** The reply names the native turn that was steered. */
  predicate Confirms(call: SteerCall, reply: SteerReply) {
    reply.SteerTurn? && reply.turnId == Some(call.expected)
  }

  lemma ConfirmedJoins(s: State, turnId: Option<Id>)
    requires Shaped(s) && SteerIsLive(s) && !s.fenced && Confirms(s.steer.value, SteerTurn(turnId))
    ensures var r, dispatch := OnSteerReply(s, SteerTurn(turnId)), s.steer.value.dispatch;
      && r.turn.Some? && !r.fenced && s.queue != [] && s.queue[0] == dispatch.input && r.queue == s.queue[1..]
      && r.turn.value.group.members == s.turn.value.group.members + [dispatch]
      && r.trace.steered == s.trace.steered + [dispatch.input]
  {
    var s1 := SteerAccepted(s);
    if CanResume(s1) {
      ResumedKeepsGroup(s1);
    }
  }

  lemma ResumedKeepsGroup(s: State)
    requires s.turn.Some? && CanResume(s) && !s.fenced
    ensures var r := ResumeBuffered(s);
      && r.turn.Some? && !r.fenced && r.queue == s.queue && r.trace.steered == s.trace.steered
      && r.turn.value.group.members == s.turn.value.group.members
  {
  }

  lemma RejectedCloses(s: State)
    requires Shaped(s) && SteerIsLive(s) && !s.fenced
    ensures var r := OnSteerReply(s, SteerRejected);
      && r.turn.Some? && !r.fenced && r.queue == s.queue && r.steer.None? && Shut(r.turn.value)
      && r.turn.value.group.members == s.turn.value.group.members
  {
    var s1 := SteerOver(s);
    var s2 := WithTurn(s1, s1.turn.value.(group := s1.turn.value.group.(closed := true)));
    if s2.turn.value.settlement.completionSeen && s2.turn.value.settlement.terminal.Some? {
      BufferedStaysShut(s2);
      BufferedStaysOut(s2);
    }
  }

  /** In every reachable state: the reply to a steer of the active turn takes the head
      into the group if it names the steered turn; closes the group and leaves the
      head to wait if the steer was definitely rejected; and otherwise fences, with
      the head neither in the group nor gone. */
  lemma {:induction false} ReplyDecides(s: State, reply: SteerReply)
    requires Shaped(s) && SteerIsLive(s) && !s.fenced
    ensures var r, t, call := Next(s, SteerReplied(reply)), s.turn.value, s.steer.value;
      && r.turn.Some?
      && if Confirms(call, reply) then
           !r.fenced && [call.dispatch.input] + r.queue == s.queue && r.turn.value.group.members == t.group.members + [call.dispatch]
         else if reply.SteerRejected? then
           !r.fenced && r.queue == s.queue && r.turn.value.group.members == t.group.members && Shut(r.turn.value)
         else
           && r.fenced && r.queue == s.queue && r.turn.value.group.members == t.group.members
           && r.turn.value.phase == Fenced && r.turn.value.settlement.completed
  {
    match reply
    case SteerUnknown =>
    case SteerRejected => RejectedCloses(s);
    case SteerTurn(turnId) =>
      if Confirms(s.steer.value, reply) {
        ConfirmedJoins(s, turnId);
      }
  }
}
