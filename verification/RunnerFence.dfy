/**
 The fence of the ordered-steer driver: once raised for the turn at stake, no
 final follows, whatever arrives. Raised for a turn that is already gone, it
 leaves the turn at stake open, and at most that turn is still answered.
 */
module RunnerFence {
  import opened Options
  import opened GroupIdentity
  import opened RunnerSteps
  import opened RunnerInvariant

  /** The two branches of the root retry loop that do not look at the fence. */
  predicate ResendsRoot(s: State, step: Step) {
    && step.RootError? && Enabled(s, step)
    && (FallsBack(s, s.point.call, step.failure) || RetriesLegacy(s, s.point.call, step.failure))
  }

  /** What a fenced runner still does, in any state at all. */
  lemma {:induction false} FencedEmitsExactly(s: State, step: Step)
    requires s.fenced
    ensures Next(s, step).fenced
    ensures Next(s, step).finals != s.finals
       <==> step.Finalize? && Enabled(s, Finalize) && s.turn.value.phase != Fenced && s.turn.value.group.members != []
  {
  }

  /** An input left the queue before the fence, and its turn is started now. */
  predicate LaunchesFenced(s: State, step: Step) {
    step.Launch? && s.point.Launching?
  }

  /** What a fenced runner still sends, in any state at all; it never publishes an
      idle state. */
  lemma {:induction false} FencedSendsExactly(s: State, step: Step)
    requires s.fenced
    ensures Next(s, step).fenced && Next(s, step).trace.idleMarkers == s.trace.idleMarkers
    ensures s.trace.sends <= Next(s, step).trace.sends
    ensures Next(s, step).trace.sends != s.trace.sends <==> ResendsRoot(s, step) || LaunchesFenced(s, step)
  {
    FencedEmitsExactly(s, step);
    if Enabled(s, step) && step.RootError? {
      FencedErrorSendsExactly(s, step.failure);
    }
  }

  lemma FencedErrorSendsExactly(s: State, failure: RpcFailure)
    requires s.fenced && s.point.AwaitRoot? && s.turn.Some?
    ensures var r := OnRootError(s, failure);
      && r.trace.idleMarkers == s.trace.idleMarkers && s.trace.sends <= r.trace.sends
      && (r.trace.sends != s.trace.sends <==> ResendsRoot(s, RootError(failure)))
  {
  }

  /** No step of the run resends a root or launches a dequeued input. */
  ghost predicate Silent(s: State, steps: seq<Step>) {
    forall k :: 0 <= k < |steps| ==>
      !ResendsRoot(Run(s, steps[..k]), steps[k]) && !LaunchesFenced(Run(s, steps[..k]), steps[k])
  }

  lemma SilentSnoc(s: State, steps: seq<Step>)
    requires steps != []
    ensures var n := |steps| - 1; var m := Run(s, steps[..n]);
      Silent(s, steps) <==> Silent(s, steps[..n]) && !ResendsRoot(m, steps[n]) && !LaunchesFenced(m, steps[n])
  {
    var n := |steps| - 1;
    assert forall k :: 0 <= k < n ==> steps[..n][..k] == steps[..k] && steps[..n][k] == steps[k];
  }

  /** Over every continuation of a fence, however it was raised: no idle state, and
      a send exactly if a root is resent or a dequeued input is launched. */
  lemma {:induction false} FencedRunSendsExactly(s: State, steps: seq<Step>)
    requires s.fenced
    ensures var r := Run(s, steps);
      && r.fenced && r.trace.idleMarkers == s.trace.idleMarkers && s.trace.sends <= r.trace.sends
      && (r.trace.sends == s.trace.sends <==> Silent(s, steps))
  {
    if steps != [] {
      var n := |steps| - 1;
      SilentSnoc(s, steps);
      FencedRunSendsExactly(s, steps[..n]);
      FencedSendsExactly(Run(s, steps[..n]), steps[n]);
    }
  }

  /** No turn is at stake but one the fence has closed. */
  predicate Sealed(s: State) {
    s.fenced && Fenceable(s)
  }

  /** A fence raised now, or raised before, leaves no turn open. */
  predicate Fenceable(s: State) {
    && (s.point.AwaitRoot? || s.point.AwaitDone? ==> s.turn.Some? && (s.fenced ==> s.turn.value.phase == Fenced))
    && (s.point.Launching? ==> s.turn.None? && !s.fenced)
    && (!s.fenced && s.turn.Some? ==> s.point.AwaitRoot? || s.point.AwaitDone?)
    && (s.turn.Some? && s.turn.value.phase == Fenced ==> s.turn.value.settlement.completed)
  }

  /** A steer reply that is unknown, or contradicts the steer or the queue, after
      its own turn was answered and while another input is being run: the fence
      is raised for the old turn. */
  predicate FencesTheWrongTurn(s: State, step: Step) {
    && !s.fenced && step.SteerReplied? && s.steer.Some? && !SteerIsLive(s)
    && (step.reply.SteerUnknown? || (step.reply.SteerTurn? && !SteerMatches(s, step.reply.turnId)))
    && (s.point.Launching? || s.point.AwaitRoot? || s.point.AwaitDone?)
  }

  lemma TendsFenceable(s: State, r: State)
    requires Fenceable(s) && Tends(s, r)
    ensures Fenceable(r)
  {
  }

  lemma BufferedFenceable(s: State)
    requires Fenceable(s) && s.turn.Some? && s.turn.value.settlement.terminal.Some?
    ensures Fenceable(SettleBuffered(s))
  {
    SteeredTends(s, s.turn.value.settlement.terminal.value);
    TendsFenceable(s, SettleSteered(s, s.turn.value.settlement.terminal.value));
  }

  lemma FenceFenceable(s: State)
    requires Fenceable(s) && s.turn.Some?
    ensures Fenceable(FenceAndSettle(s)) && Fenceable(FenceAndSettle(s).(point := Returned))
  {
  }

  lemma AdmitFenceable(s: State)
    requires Fenceable(s)
    ensures Fenceable(TryAdmit(s))
  {
  }

  lemma DrainFenceable(s: State)
    requires Fenceable(s) && (s.point.Idle? || s.point.Returned?)
    ensures Fenceable(DrainLoop(s))
  {
  }

  lemma EnqueueFenceable(s: State, line: Line)
    requires Fenceable(s)
    ensures Fenceable(OnEnqueue(s, line))
  {
    var s1 := if line.Framed? then TryAdmit(Pushed(s, line)) else Pushed(s, line);
    assert Fenceable(Pushed(s, line));
    AdmitFenceable(Pushed(s, line));
    if s1.point.Idle? {
      DrainFenceable(s1);
    }
  }

  lemma TrackFenceable(s: State, id: Id, native: NativeTurn)
    requires Fenceable(s) && s.turn.Some?
    ensures Fenceable(TrackStarted(s, id, native))
  {
    var t := s.turn.value;
    if t.identity.nativeId == Some(id) {
      AdmitFenceable(WithTurn(s, t.(request := t.request.(serverStarted := true))));
    } else {
      NotedTends(s, id, native);
      TendsFenceable(s, TrackStarted(s, id, native));
    }
  }

  lemma TrackedFenceable(s: State, id: Id, native: NativeTurn)
    requires Fenceable(s) && s.turn.Some?
    ensures Fenceable(Tracked(s, id, native))
  {
    if |Exact(native, s.turn.value.clientId)| != 1 {
      TrackFenceable(s, id, native);
    } else {
      FenceFenceable(s);
      var (s1, proceed) := ProveExact(s, id, ExactStarted);
      if proceed {
        var s2 := WithTurn(s1, OpenStarted(s1.turn.value, id));
        assert Fenceable(s2);
        TrackFenceable(s2, id, native);
      }
    }
  }

  lemma StartedFenceable(s: State, id: Option<Id>, native: NativeTurn, replayed: bool)
    requires Fenceable(s)
    ensures Fenceable(OnStarted(s, id, native, replayed))
  {
    var s1 := if id.Some? && (!replayed || s.nativeActive.None? || s.nativeActive == id) then s.(nativeActive := id) else s;
    ActiveFenceable(s, id);
    if s1.turn.Some? && id.Some? {
      TrackedFenceable(s1, id.value, native);
    } else {
      UntrackedFenceable(s1);
    }
  }

  lemma ActiveFenceable(s: State, active: Option<Id>)
    requires Fenceable(s)
    ensures Fenceable(s.(nativeActive := active))
  {
  }

  lemma UntrackedFenceable(s: State)
    requires Fenceable(s)
    ensures Fenceable(UntrackedStart(s))
  {
  }

  lemma CompletedFenceable(s: State, id: Option<Id>, native: NativeTurn)
    requires Fenceable(s)
    ensures Fenceable(OnCompleted(s, id, native))
  {
    var s1 := s.(nativeActive := Released(s, id));
    if s1.turn.None? {
      var s2 := SettleRunnerState(s1);
      if s2.point.Idle? {
        DrainFenceable(s2);
      }
    } else if InGroupMode(s1.turn.value) {
      GroupCompletedFenceable(s1, id, native);
    } else {
      SingleCompletedFenceable(s1, id, native);
    }
  }

  lemma GroupCompletedFenceable(s: State, id: Option<Id>, native: NativeTurn)
    requires Fenceable(s) && s.turn.Some? && InGroupMode(s.turn.value)
    ensures Fenceable(GroupCompleted(s, id, native))
  {
    var s1 := WithTurn(s, BufferCompletion(s.turn.value, id, native));
    BufferTends(s, id, native);
    TendsFenceable(s, s1);
    if !s1.turn.value.group.steerInFlight {
      SteeredTends(s1, native);
      GroupScanTends(s1);
      TendsFenceable(s1, GroupCompleted(s, id, native));
    }
  }

  lemma SingleCompletedFenceable(s: State, id: Option<Id>, native: NativeTurn)
    requires Fenceable(s) && s.turn.Some?
    ensures Fenceable(SingleCompleted(s, id, native))
  {
    var t := s.turn.value;
    var exact := Exact(native, t.clientId);
    if Upgrades(t, id, native) {
      FenceFenceable(s);
    } else {
      SingleCompletedTends(s, id, native);
      TendsFenceable(s, SingleCompleted(s, id, native));
    }
  }

  lemma {:induction false} ReplayFenceable(s: State, notes: seq<Notification>, now: int)
    requires Fenceable(s) && s.turn.Some?
    ensures Fenceable(ReplayAll(s, notes, now))
    decreases |notes|
  {
    if notes != [] {
      match notes[0] {
        case StartedNote(id, native) => StartedFenceable(s, Some(id), native, true);
        case ProgressNote(id, effect) =>
          ProgressTends(s, Some(id), effect, now);
          TendsFenceable(s, OnProgress(s, Some(id), effect, now));
      }
      ReplayFenceable(ReplayOne(s, notes[0], now), notes[1..], now);
    }
  }

  lemma SettleAfterResponseFenceable(s: State)
    requires Fenceable(s) && s.turn.Some?
    ensures Fenceable(SettleAfterResponse(s))
  {
    var s1 := ResumeBuffered(s);
    if CanResume(s) {
      BufferedFenceable(s);
    }
    assert Fenceable(s1);
    if SettlesBufferedCanonical(s.turn.value) {
      SteeredTends(s1, s1.turn.value.settlement.terminal.value);
      TendsFenceable(s1, SettleAfterResponse(s));
    }
  }

  lemma ScanFenceable(s: State, keep: bool, now: int)
    requires Fenceable(s) && s.turn.Some?
    ensures Fenceable(StartSingleScan(s, keep, now))
  {
    ConflictTends(s, LegacyInput);
    TendsFenceable(s, ReportConflict(s, LegacyInput));
  }

  lemma PendingFenceable(s: State, pending: seq<NativeTurn>, now: int)
    requires Fenceable(s) && s.turn.Some?
    ensures Fenceable(SettlePending(s, pending, now))
  {
    var t := s.turn.value;
    var r := SettlePending(s, pending, now);
    var exact := ExactMatches(pending, t.clientId);
    var mine := NativeMatches(pending, t.identity.nativeId);
    if |exact| == 1 {
      CompleteTends(s, exact[0], Some(Exact(exact[0], t.clientId)[0]));
      TendsFenceable(s, r);
    } else if |exact| > 1 || |mine| > 1 {
      ConflictTends(s, ManyMatches);
      TendsFenceable(s, r);
    } else if t.request.kind == StartRequest && |mine| == 1 {
      CompleteTends(s, mine[0], None);
      TendsFenceable(s, r);
    } else {
      ScanFenceable(s, false, now);
      ScanFenceable(s, true, now);
    }
  }

  lemma SettledFenceable(s: State, id: Option<Id>, now: int)
    requires Fenceable(s) && s.point.AwaitRoot?
    ensures Fenceable(Settled(s, id, now))
  {
    var s0 := Bound(s, id);
    assert Fenceable(s0);
    SettleAfterResponseFenceable(s0);
    var s1 := SettleAfterResponse(s0);
    var s2 := WithTurn(s1, s1.turn.value.(buffers := s1.turn.value.buffers.(notes := [])));
    assert Fenceable(s2);
    ReplayFenceable(s2, s1.turn.value.buffers.notes, now);
  }

  lemma RootResponseFenceable(s: State, id: Option<Id>, now: int)
    requires Fenceable(s) && s.point.AwaitRoot?
    ensures Fenceable(OnRootResponse(s, id, now))
  {
    var t := s.turn.value;
    var responseId := if id.Some? then id else t.identity.nativeId;
    if ResponseContradicts(t, responseId) {
      FenceFenceable(WithTurn(s, t.(request := t.request.(pending := false))));
    } else {
      SettledFenceable(s, responseId, now);
      var s1 := Settled(s, responseId, now);
      PendingFenceable(s1, t.buffers.completions, now);
      AdmitFenceable(SettlePending(s1, t.buffers.completions, now));
    }
  }

  lemma RootErrorFenceable(s: State, failure: RpcFailure)
    requires Fenceable(s) && s.point.AwaitRoot?
    ensures Fenceable(OnRootError(s, failure))
  {
    FenceFenceable(s);
  }

  lemma SteerReplyFenceable(s: State, reply: SteerReply)
    requires Fenceable(s) && s.steer.Some? && !FencesTheWrongTurn(s, SteerReplied(reply))
    ensures Fenceable(OnSteerReply(s, reply))
  {
    match reply
    case SteerUnknown => UnclearFenceable(s);
    case SteerRejected => RejectedFenceable(s);
    case SteerTurn(turnId) =>
      if SteerMatches(s, turnId) {
        AcceptedFenceable(s);
      } else {
        UnclearFenceable(s);
      }
  }

  lemma UnclearFenceable(s: State)
    requires Fenceable(s) && s.steer.Some? && !FencesTheWrongTurn(s, SteerReplied(SteerUnknown))
    ensures Fenceable(FenceSteer(s))
  {
    assert Fenceable(SteerOver(s));
    if SteerIsLive(s) {
      FenceFenceable(SteerOver(s));
    }
  }

  lemma RejectedFenceable(s: State)
    requires Fenceable(s) && s.steer.Some?
    ensures Fenceable(OnSteerReply(s, SteerRejected))
  {
    assert Fenceable(SteerOver(s));
    if SteerIsLive(s) {
      var s1 := SteerOver(s);
      var s2 := WithTurn(s1, s1.turn.value.(group := s1.turn.value.group.(closed := true)));
      assert Fenceable(s2);
      if s2.turn.value.settlement.completionSeen && s2.turn.value.settlement.terminal.Some? {
        BufferedFenceable(s2);
      }
    }
  }

  lemma AcceptedFenceable(s: State)
    requires Fenceable(s) && s.steer.Some? && s.queue != []
    ensures Fenceable(TryAdmit(SteerAccepted(s)))
    ensures SteerIsLive(s) ==> Fenceable(ResumeBuffered(SteerAccepted(s)))
  {
    var s1 := SteerAccepted(s);
    assert Fenceable(s1);
    if SteerIsLive(s) && CanResume(s1) {
      BufferedFenceable(s1);
    }
    AdmitFenceable(s1);
  }

  lemma HistoryFenceable(s: State, history: seq<NativeTurn>, now: int)
    requires Fenceable(s) && s.turn.Some?
    ensures Fenceable(OnHistory(s, history, now)) && Fenceable(OnHistoryFailed(s))
  {
    ConflictTends(s, LookupFailed);
    TendsFenceable(s, ReportConflict(s, LookupFailed));
    match s.turn.value.settlement.scan
    case NoScan =>
    case SingleScan(keep) =>
      SingleHistoryTends(s, history, keep, now);
      TendsFenceable(s, OnHistory(s, history, now));
    case GroupScan =>
      var matches := GroupMatches(history, SentIds(s.turn.value.group.members));
      ConflictTends(s, if |matches| == 0 then NoMatch else ManyMatches);
      TendsFenceable(s, ReportConflict(s, if |matches| == 0 then NoMatch else ManyMatches));
  }

  lemma {:induction false} NextFenceable(s: State, step: Step)
    requires Fenceable(s) && !FencesTheWrongTurn(s, step)
    ensures Fenceable(Next(s, step))
  {
    if Enabled(s, step) {
      match step
      case Enqueue(line) => EnqueueFenceable(s, line);
      case RootResponse(id, now) => RootResponseFenceable(s, id, now);
      case RootError(failure) => RootErrorFenceable(s, failure);
      case SteerReplied(reply) => SteerReplyFenceable(s, reply);
      case TurnStarted(id, native) => StartedFenceable(s, id, native, false);
      case TurnCompleted(id, native) => CompletedFenceable(s, id, native);
      case Progress(id, effect, now) =>
        ProgressTends(s, id, effect, now);
        TendsFenceable(s, OnProgress(s, id, effect, now));
      case HistoryScanned(history, now) => HistoryFenceable(s, history, now);
      case HistoryFailed => HistoryFenceable(s, [], 0);
      case AfterTurn => DrainFenceable(if s.queue == [] || Parked(s) then SettleRunnerState(s) else s);
      case _ =>
    }
  }

  /** Once sealed, whatever arrives next: no final, the fence stays up and sealed,
      and nothing is sent or advertised as idle, unless and only unless the root
      retry loop resends. */
  lemma {:induction false} FenceIsTerminal(s: State, step: Step)
    requires Sealed(s)
    ensures Sealed(Next(s, step)) && Next(s, step).finals == s.finals
    ensures Next(s, step).trace.idleMarkers == s.trace.idleMarkers
    ensures Next(s, step).trace.sends == s.trace.sends <==> !ResendsRoot(s, step)
  {
    NextFenceable(s, step);
    FencedEmitsExactly(s, step);
    FencedSendsExactly(s, step);
  }

  /** A fence is raised open exactly when it is raised for the wrong turn, and
      such a step always raises one. */
  lemma {:induction false} FenceSealsExactly(s: State, step: Step)
    requires Shaped(s) && !s.fenced
    ensures Next(s, step).fenced ==> (Sealed(Next(s, step)) <==> !FencesTheWrongTurn(s, step))
    ensures FencesTheWrongTurn(s, step) ==> Next(s, step).fenced
  {
    assert Fenceable(s);
    if !FencesTheWrongTurn(s, step) {
      NextFenceable(s, step);
    }
  }

  lemma {:induction false} RunFenceable(config: Config, steps: seq<Step>)
    requires forall k :: 0 <= k < |steps| ==> !FencesTheWrongTurn(Run(Init(config), steps[..k]), steps[k])
    ensures Fenceable(Run(Init(config), steps))
  {
    if steps != [] {
      var n := |steps| - 1;
      assert forall k :: 0 <= k < n ==> steps[..n][..k] == steps[..k];
      RunFenceable(config, steps[..n]);
      NextFenceable(Run(Init(config), steps[..n]), steps[n]);
    }
  }

  /** From a sealed fence on, over every continuation. */
  lemma {:induction false} SealedRun(s: State, steps: seq<Step>)
    requires Sealed(s)
    ensures Sealed(Run(s, steps)) && Run(s, steps).finals == s.finals
    ensures (forall k :: 0 <= k < |steps| ==> !ResendsRoot(Run(s, steps[..k]), steps[k]))
        ==> Run(s, steps).trace.sends == s.trace.sends
  {
    if steps != [] {
      var n := |steps| - 1;
      assert forall k :: 0 <= k < n ==> steps[..n][..k] == steps[..k];
      SealedRun(s, steps[..n]);
      FenceIsTerminal(Run(s, steps[..n]), steps[n]);
    }
  }

  /** What a fenced runner still emits closes the one turn the fence left open. */
  lemma FencedAnswerSeals(s: State, step: Step)
    requires s.fenced && Next(s, step).finals != s.finals
    ensures Sealed(Next(s, step)) && s.turn.Some? && Next(s, step).finals == s.finals + GroupFinals(s.turn.value)
  {
    FencedEmitsExactly(s, step);
  }

  /** All that the run adds to the finals is the group that is active at step `k`. */
  predicate AnswersOnlyAt(s: State, steps: seq<Step>, k: nat)
    requires k < |steps|
  {
    var m := Run(s, steps[..k]);
    m.finals == s.finals && m.turn.Some? && Run(s, steps).finals == s.finals + GroupFinals(m.turn.value)
  }

  /** Over every continuation of a fence, however it was raised: nothing more is
      finalized, or one group is, as a whole, and the fence is sealed by then. */
  lemma {:induction false} AtMostOneGroupAfterFence(s: State, steps: seq<Step>)
    requires s.fenced
    ensures Run(s, steps).finals == s.finals
         || (Sealed(Run(s, steps)) && exists k :: 0 <= k < |steps| && AnswersOnlyAt(s, steps, k))
  {
    if steps != [] {
      var n := |steps| - 1;
      var m := Run(s, steps[..n]);
      AtMostOneGroupAfterFence(s, steps[..n]);
      FencedRunSendsExactly(s, steps[..n]);
      if m.finals != s.finals {
        FenceIsTerminal(m, steps[n]);
        var k :| 0 <= k < n && AnswersOnlyAt(s, steps[..n], k);
        assert steps[..n][..k] == steps[..k];
        assert AnswersOnlyAt(s, steps, k);
      } else if Next(m, steps[n]).finals != m.finals {
        FencedAnswerSeals(m, steps[n]);
        assert AnswersOnlyAt(s, steps, n);
      }
    }
  }

  /** Over every run `before` in which no fence was raised for the wrong turn, and
      every continuation `after`: once fenced, no final is ever emitted and no idle
      state advertised. */
  lemma {:induction false} NoFinalAfterFence(config: Config, before: seq<Step>, after: seq<Step>)
    requires Run(Init(config), before).fenced
    requires forall k :: 0 <= k < |before| ==> !FencesTheWrongTurn(Run(Init(config), before[..k]), before[k])
    ensures var s, r := Run(Init(config), before), Run(Run(Init(config), before), after);
      && r.fenced && r.finals == s.finals && r.trace.idleMarkers == s.trace.idleMarkers
      && ((forall k :: 0 <= k < |after| ==> !ResendsRoot(Run(s, after[..k]), after[k])) ==> r.trace.sends == s.trace.sends)
  {
    RunFenceable(config, before);
    SealedRun(Run(Init(config), before), after);
    FencedRunSendsExactly(Run(Init(config), before), after);
  }
}
