/**
 The Goal gate of the drain loop: while an autonomous native turn is active, only
 a steerable head leaves the queue, into that turn; any other head waits, and is
 started as soon as it can be. A native turn that starts after the gate was passed
 is not looked for again.
 */
module RunnerGate {
  import opened Options
  import opened GroupIdentity
  import opened RunnerSteps
  import opened RunnerInvariant

  // ---------------------------------------------------------------------------
  // What leaves the queue alone
  // ---------------------------------------------------------------------------

  /** The outstanding steer carries the queue head, which may be steered. */
  predicate AdmitsHead(s: State) {
    s.steer.Some? && s.queue != [] && s.steer.value.dispatch.input == s.queue[0] && s.queue[0].steerable
  }

  /** Nothing enters or leaves the queue; at most its head is steered. */
  predicate LeavesQueue(s: State, r: State) {
    && r.queue == s.queue && r.received == s.received && (s.fenced ==> r.fenced)
    && (r.steer == s.steer || AdmitsHead(r)) && r.trace.idleMarkers == s.trace.idleMarkers
  }

  predicate StaysOut(s: State, r: State) {
    LeavesQueue(s, r) && r.point == s.point
  }

  lemma SteeredStaysOut(s: State, native: NativeTurn)
    requires s.turn.Some?
    ensures StaysOut(s, SettleSteered(s, native))
  {
  }

  lemma BufferedStaysOut(s: State)
    requires s.turn.Some? && s.turn.value.settlement.terminal.Some?
    ensures StaysOut(s, SettleBuffered(s))
  {
    SteeredStaysOut(s, s.turn.value.settlement.terminal.value);
  }

  lemma AdmitStaysOut(s: State)
    ensures StaysOut(s, TryAdmit(s))
  {
  }

  lemma TrackStaysOut(s: State, id: Id, native: NativeTurn)
    requires s.turn.Some?
    ensures StaysOut(s, TrackStarted(s, id, native))
  {
    var t := s.turn.value;
    if t.identity.nativeId == Some(id) {
      AdmitStaysOut(WithTurn(s, t.(request := t.request.(serverStarted := true))));
    }
  }

  lemma ProofStaysOut(s: State, id: Id, proof: Proof)
    requires s.turn.Some?
    ensures StaysOut(s, ProveExact(s, id, proof).0) && ProveExact(s, id, proof).0.turn.Some?
    ensures ProveExact(s, id, proof).0.nativeActive == s.nativeActive
  {
  }

  lemma TrackedStaysOut(s: State, id: Id, native: NativeTurn)
    requires s.turn.Some?
    ensures StaysOut(s, Tracked(s, id, native))
  {
    TrackStaysOut(s, id, native);
    ProofStaysOut(s, id, ExactStarted);
    var (s1, proceed) := ProveExact(s, id, ExactStarted);
    TrackStaysOut(WithTurn(s1, OpenStarted(s1.turn.value, id)), id, native);
  }

  lemma StartStaysOut(s: State, id: Option<Id>, native: NativeTurn, replayed: bool)
    ensures StaysOut(s, OnStarted(s, id, native, replayed))
  {
    var s1 := if id.Some? && (!replayed || s.nativeActive.None? || s.nativeActive == id) then s.(nativeActive := id) else s;
    if s1.turn.Some? && id.Some? {
      TrackedStaysOut(s1, id.value, native);
    }
  }

  lemma GroupCompletionStaysOut(s: State, id: Option<Id>, native: NativeTurn)
    requires s.turn.Some?
    ensures StaysOut(s, GroupCompleted(s, id, native))
  {
    SteeredStaysOut(WithTurn(s, BufferCompletion(s.turn.value, id, native)), native);
  }

  lemma SingleCompletionStaysOut(s: State, id: Option<Id>, native: NativeTurn)
    requires s.turn.Some?
    ensures StaysOut(s, SingleCompleted(s, id, native))
  {
    if Upgrades(s.turn.value, id, native) {
      ProofStaysOut(s, id.value, ExactCompleted);
    } else {
      var exact := Exact(native, s.turn.value.clientId);
      CompleteTends(s, native, if |exact| == 1 then Some(exact[0]) else None);
      ScanStaysOut(s, false, 0);
    }
  }

  lemma ScanStaysOut(s: State, keepPending: bool, now: int)
    requires s.turn.Some?
    ensures StaysOut(s, StartSingleScan(s, keepPending, now))
  {
  }

  lemma TurnCompletionStaysOut(s: State, id: Option<Id>, native: NativeTurn)
    requires s.turn.Some?
    ensures StaysOut(s, OnCompleted(s, id, native))
  {
    var s1 := s.(nativeActive := Released(s, id));
    GroupCompletionStaysOut(s1, id, native);
    SingleCompletionStaysOut(s1, id, native);
  }

  lemma {:induction false} ReplayStaysOut(s: State, notes: seq<Notification>, now: int)
    requires s.turn.Some?
    ensures StaysOut(s, ReplayAll(s, notes, now))
    decreases |notes|
  {
    if notes != [] {
      match notes[0] {
        case StartedNote(id, native) => StartStaysOut(s, Some(id), native, true);
        case ProgressNote(id, effect) =>
      }
      ReplayStaysOut(ReplayOne(s, notes[0], now), notes[1..], now);
    }
  }

  lemma SettlingStaysOut(s: State)
    requires s.turn.Some?
    ensures StaysOut(s, SettleAfterResponse(s))
  {
    if CanResume(s) {
      BufferedStaysOut(s);
    }
    if SettlesBufferedCanonical(s.turn.value) {
      SteeredStaysOut(ResumeBuffered(s), ResumeBuffered(s).turn.value.settlement.terminal.value);
    }
  }

  lemma PendingStaysOut(s: State, pending: seq<NativeTurn>, now: int)
    requires s.turn.Some?
    ensures StaysOut(s, SettlePending(s, pending, now))
  {
    var exact := ExactMatches(pending, s.turn.value.clientId);
    var mine := NativeMatches(pending, s.turn.value.identity.nativeId);
    if |exact| == 1 {
      CompleteTends(s, exact[0], Some(Exact(exact[0], s.turn.value.clientId)[0]));
    } else if |mine| == 1 {
      CompleteTends(s, mine[0], None);
    }
    ConflictTends(s, ManyMatches);
    ScanStaysOut(s, false, now);
    ScanStaysOut(s, true, now);
  }

  lemma SettledStaysOut(s: State, id: Option<Id>, now: int)
    requires s.turn.Some?
    ensures LeavesQueue(s, Settled(s, id, now)) && Settled(s, id, now).point == AwaitDone
  {
    SettlingStaysOut(Bound(s, id));
    var s1 := SettleAfterResponse(Bound(s, id));
    ReplayStaysOut(WithTurn(s1, s1.turn.value.(buffers := s1.turn.value.buffers.(notes := []))), s1.turn.value.buffers.notes, now);
  }

  lemma LeavesOn(s: State, m: State, r: State)
    requires LeavesQueue(s, m) && LeavesQueue(m, r)
    ensures LeavesQueue(s, r)
  {
  }

  lemma AgreedResponseStaysOut(s: State, id: Option<Id>, pending: seq<NativeTurn>, now: int)
    requires s.turn.Some?
    ensures var m := SettlePending(Settled(s, id, now), pending, now);
      LeavesQueue(s, m) && LeavesQueue(s, TryAdmit(m)) && m.point.AwaitDone? && TryAdmit(m).point.AwaitDone?
  {
    var s1 := Settled(s, id, now);
    SettledStaysOut(s, id, now);
    PendingStaysOut(s1, pending, now);
    var m := SettlePending(s1, pending, now);
    AdmitStaysOut(m);
    LeavesOn(s, s1, m);
    LeavesOn(s, m, TryAdmit(m));
  }

  lemma ResponseStaysOut(s: State, id: Option<Id>, now: int)
    requires s.point.AwaitRoot? && s.turn.Some?
    ensures var r := OnRootResponse(s, id, now); LeavesQueue(s, r) && (r.point.AwaitDone? || r.point.Returned?)
  {
    var responseId := if id.Some? then id else s.turn.value.identity.nativeId;
    if !ResponseContradicts(s.turn.value, responseId) {
      AgreedResponseStaysOut(s, responseId, s.turn.value.buffers.completions, now);
    }
  }

  lemma HistoryStaysOut(s: State, history: seq<NativeTurn>, now: int)
    requires s.turn.Some?
    ensures StaysOut(s, OnHistory(s, history, now))
  {
    match s.turn.value.settlement.scan
    case NoScan =>
    case SingleScan(keep) => SingleHistoryTends(s, history, keep, now);
    case GroupScan =>
      var matches := GroupMatches(history, SentIds(s.turn.value.group.members));
      ConflictTends(s, if |matches| == 0 then NoMatch else ManyMatches);
  }

  /** An accepted steer takes its head out; any other reply leaves the queue. */
  predicate TakesHead(s: State, taken: bool, r: State) {
    && r.point == s.point && r.received == s.received && (s.fenced ==> r.fenced)
    && r.trace.idleMarkers == s.trace.idleMarkers && (r.steer.None? || AdmitsHead(r))
    && r.queue == (if taken && s.queue != [] then s.queue[1..] else s.queue)
    && (s.turn.None? ==> r.nativeActive == s.nativeActive && r.turn.None?)
  }

  lemma RejectionTakesNothing(s: State)
    requires s.steer.Some?
    ensures TakesHead(s, false, OnSteerReply(s, SteerRejected))
  {
    if SteerIsLive(s) {
      var s1 := SteerOver(s);
      var s2 := WithTurn(s1, s1.turn.value.(group := s1.turn.value.group.(closed := true)));
      if s2.turn.value.settlement.completionSeen && s2.turn.value.settlement.terminal.Some? {
        BufferedStaysOut(s2);
      }
    }
  }

  lemma AcceptanceTakesHead(s: State)
    requires s.steer.Some? && s.queue != []
    ensures var s1 := SteerAccepted(s);
      && TakesHead(s, true, TryAdmit(s1))
      && (SteerIsLive(s) ==> TakesHead(s, true, ResumeBuffered(s1)))
  {
    var s1 := SteerAccepted(s);
    if SteerIsLive(s) && CanResume(s1) {
      BufferedStaysOut(s1);
    }
    AdmitStaysOut(s1);
  }

  lemma ReplyTakesHead(s: State, reply: SteerReply)
    requires s.steer.Some?
    ensures TakesHead(s, reply.SteerTurn? && SteerMatches(s, reply.turnId), OnSteerReply(s, reply))
  {
    match reply
    case SteerUnknown =>
    case SteerRejected => RejectionTakesNothing(s);
    case SteerTurn(turnId) =>
      if SteerMatches(s, turnId) {
        AcceptanceTakesHead(s);
      }
  }

  // ---------------------------------------------------------------------------
  // When an input leaves the queue to become a root
  // ---------------------------------------------------------------------------

  /** No autonomous native turn is active after the completion. */
  predicate GoalOver(s: State, id: Option<Id>) {
    s.nativeActive.None? || (id.Some? && s.nativeActive == id)
  }

  /** The root is rejected for good, with nothing seen of it. */
  predicate RejectsRoot(s: State, failure: RpcFailure) {
    && s.point.AwaitRoot? && s.turn.Some? && !s.fenced && failure.serverError && !PositiveEvidence(s.turn.value)
    && !FallsBack(s, s.point.call, failure) && !RetriesLegacy(s, s.point.call, failure)
  }

  /** The drain loop looks at the queue in this step. */
  predicate Drains(s: State, step: Step) {
    match step
    case Enqueue(_) => s.point.Idle?
    case AfterTurn => s.point.Returned?
    case TurnCompleted(id, _) => s.point.Idle? && s.turn.None? && GoalOver(s, id)
    case RootError(failure) => RejectsRoot(s, failure)
    case _ => false
  }

  /** The queue with what the step enqueues. */
  function Lined(s: State, step: Step): seq<Input> {
    if step.Enqueue? then s.queue + [Decode(s, step.line)] else s.queue
  }

  /** The loop either starts a turn for the head, or goes idle. */
  predicate GateOpens(s: State) {
    !s.fenced && s.queue != [] && (s.nativeActive.None? || s.queue[0].steerable)
  }

  predicate PassesGate(s: State, r: State) {
    && r == s.(queue := r.queue, point := r.point, idleTimer := r.idleTimer, trace := r.trace)
    && r.trace.sends == s.trace.sends && r.trace.idleMarkers == s.trace.idleMarkers
    && (if GateOpens(s) then r.point == Launching(s.queue[0]) && r.queue == s.queue[1..]
        else r.point == Idle && r.queue == s.queue)
  }

  lemma LoopGate(s: State)
    ensures PassesGate(s, DrainLoop(s)) && PassesGate(s, Drained(s))
  {
  }

  lemma EnqueueGate(s: State, line: Line)
    ensures var m := if line.Framed? then TryAdmit(Pushed(s, line)) else Pushed(s, line);
      && StaysOut(Pushed(s, line), m) && m.nativeActive == s.nativeActive && m.fenced == s.fenced
      && (if s.point.Idle? then PassesGate(m, OnEnqueue(s, line)) else OnEnqueue(s, line) == m)
  {
    AdmitStaysOut(Pushed(s, line));
    LoopGate(if line.Framed? then TryAdmit(Pushed(s, line)) else Pushed(s, line));
  }

  lemma CompletionGate(s: State, id: Option<Id>, native: NativeTurn)
    requires s.turn.None?
    ensures var m, r := s.(nativeActive := Released(s, id)), OnCompleted(s, id, native);
      if s.point.Idle? && s.queue != [] && m.nativeActive.None? then PassesGate(m, r)
      else r == m.(idleTimer := r.idleTimer, trace := r.trace) && r.trace == m.trace.(busyMarkers := r.trace.busyMarkers)
  {
    var m := s.(nativeActive := Released(s, id));
    LoopGate(SettleRunnerState(m));
  }

  lemma RejectionGate(s: State, failure: RpcFailure)
    requires s.point.AwaitRoot? && s.turn.Some?
    ensures var r := OnRootError(s, failure);
      && r.steer == s.steer && r.received == s.received && r.nativeActive == s.nativeActive && (s.fenced ==> r.fenced)
      && r.trace.idleMarkers == s.trace.idleMarkers
      && (if RejectsRoot(s, failure) then
            !r.fenced && (if GateOpens(s) then r.point == Launching(s.queue[0]) && r.queue == s.queue[1..]
                          else r.point == Idle && r.queue == s.queue)
          else !r.point.Launching? && r.queue == s.queue && (r.point.Idle? ==> r.fenced))
  {
    var failed := s.(turn := None, point := Returned, finals := s.finals + [Final(s.point.call.input, RunnerFailure, RunnerError)]);
    LoopGate(failed);
  }

  /** A step dequeues an input to start a turn for it exactly when the drain loop
      runs unfenced on a queue whose head may be started: no native turn is active,
      or the head may be steered into it. It is the head, and the rest stays. */
  lemma {:induction false} LeavesThroughGateExactly(s: State, step: Step)
    requires !s.point.Launching?
    ensures var r := Next(s, step);
      && (r.point.Launching?
          <==> Drains(s, step) && !s.fenced && Lined(s, step) != [] && (r.nativeActive.None? || Lined(s, step)[0].steerable))
      && (r.point.Launching? ==> r.point.next == Lined(s, step)[0] && r.queue == Lined(s, step)[1..])
  {
    if Enabled(s, step) {
      match step
      case Enqueue(line) => EnqueueGate(s, line);
      case RootResponse(id, now) => ResponseStaysOut(s, id, now);
      case RootError(failure) => RejectionGate(s, failure);
      case SteerReplied(reply) => ReplyTakesHead(s, reply);
      case TurnStarted(id, native) => StartStaysOut(s, id, native, false);
      case TurnCompleted(id, native) =>
        if s.turn.Some? {
          TurnCompletionStaysOut(s, id, native);
        } else {
          CompletionGate(s, id, native);
        }
      case HistoryScanned(history, now) => HistoryStaysOut(s, history, now);
      case AfterTurn => LoopGate(s);
      case _ =>
    }
  }

  // ---------------------------------------------------------------------------
  // Every run
  // ---------------------------------------------------------------------------

  /** The queue is in arrival order, and an outstanding steer carries a steerable
      input that was taken from it. */
  ghost predicate QueueOrdered(s: State) {
    && (forall k :: 0 <= k < |s.queue| ==> s.queue[k].serial < |s.received|)
    && (forall j, k :: 0 <= j < k < |s.queue| ==> s.queue[j].serial < s.queue[k].serial)
    && (s.steer.Some? ==> SteersQueued(s, s.steer.value.dispatch.input))
  }

  ghost predicate SteersQueued(s: State, input: Input) {
    && input.steerable && input.serial < |s.received|
    && forall k :: 0 <= k < |s.queue| && s.queue[k].serial == input.serial ==> s.queue[k] == input
  }

  /** An idle runner with work queued waits for a native turn that the head may
      not be steered into. */
  predicate IdleIsParked(s: State) {
    !s.fenced && s.point.Idle? && s.queue != [] ==> s.nativeActive.Some? && !s.queue[0].steerable
  }

  /** The outstanding steer carries the queue head. */
  predicate SteersHead(s: State) {
    s.steer.Some? && s.queue != [] && s.queue[0].serial == s.steer.value.dispatch.input.serial
  }

  /** The queue loses at most its head: through the gate, or to an accepted steer. */
  predicate Moves(s: State, line: seq<Input>, r: State) {
    && (r.steer == s.steer || r.steer.None? || AdmitsHead(r))
    && (|| r.queue == line
        || (line != [] && r.queue == line[1..] && r.point.Launching? && r.point.next == line[0]
            && (r.nativeActive.None? || line[0].steerable))
        || (SteersHead(s) && line != [] && r.queue == line[1..]))
  }

  lemma EnqueueMoves(s: State, line: Line)
    requires Shaped(s)
    ensures Moves(s, Lined(s, Enqueue(line)), OnEnqueue(s, line))
  {
    EnqueueGate(s, line);
  }

  lemma CompletionMoves(s: State, id: Option<Id>, native: NativeTurn)
    ensures Moves(s, s.queue, OnCompleted(s, id, native))
    ensures OnCompleted(s, id, native).received == s.received
  {
    if s.turn.Some? {
      TurnCompletionStaysOut(s, id, native);
    } else {
      CompletionGate(s, id, native);
    }
  }

  lemma RootMoves(s: State, step: Step)
    requires step.RootResponse? || step.RootError?
    ensures Moves(s, s.queue, Next(s, step)) && Next(s, step).received == s.received
  {
    if Enabled(s, step) {
      match step
      case RootResponse(id, now) => ResponseStaysOut(s, id, now);
      case RootError(failure) => RejectionGate(s, failure);
    }
  }

  lemma ReplyMoves(s: State, reply: SteerReply)
    requires s.steer.Some?
    ensures Moves(s, s.queue, OnSteerReply(s, reply)) && OnSteerReply(s, reply).received == s.received
  {
    ReplyTakesHead(s, reply);
  }

  lemma TurnMoves(s: State, step: Step)
    requires step.TurnStarted? || step.HistoryScanned? || step.AfterTurn?
    ensures Moves(s, s.queue, Next(s, step)) && Next(s, step).received == s.received
  {
    if Enabled(s, step) {
      match step
      case TurnStarted(id, native) => StartStaysOut(s, id, native, false);
      case HistoryScanned(history, now) => HistoryStaysOut(s, history, now);
      case AfterTurn => LoopGate(s);
    }
  }

  lemma {:induction false} QueueMoves(s: State, step: Step)
    requires Shaped(s)
    ensures Moves(s, Lined(s, step), Next(s, step))
    ensures !step.Enqueue? ==> Next(s, step).received == s.received
  {
    if step.RootResponse? || step.RootError? {
      RootMoves(s, step);
    } else if step.TurnStarted? || step.HistoryScanned? || step.AfterTurn? {
      TurnMoves(s, step);
    } else if Enabled(s, step) {
      match step
      case Enqueue(line) => EnqueueMoves(s, line);
      case SteerReplied(reply) => ReplyMoves(s, reply);
      case TurnCompleted(id, native) => CompletionMoves(s, id, native);
      case _ =>
    }
  }

  lemma OrderKept(s: State, r: State)
    requires QueueOrdered(s) && r.received == s.received && Moves(s, s.queue, r)
    ensures QueueOrdered(r)
  {
  }

  lemma PushKeepsOrder(s: State, line: Line)
    requires QueueOrdered(s)
    ensures QueueOrdered(Pushed(s, line))
  {
  }

  lemma NextKeepsOrder(s: State, step: Step)
    requires Shaped(s) && QueueOrdered(s)
    ensures QueueOrdered(Next(s, step))
  {
    QueueMoves(s, step);
    if step.Enqueue? {
      PushKeepsOrder(s, step.line);
      EnqueueGate(s, step.line);
      OrderKept(Pushed(s, step.line), Next(s, step));
    } else {
      OrderKept(s, Next(s, step));
    }
  }

  /** A steer the head may not be part of is not accepted while the runner idles. */
  lemma IdleReply(s: State, reply: SteerReply)
    requires s.steer.Some? && QueueOrdered(s) && s.point.Idle? && IdleIsParked(s) && s.turn.None?
    ensures IdleIsParked(OnSteerReply(s, reply))
  {
    ReplyTakesHead(s, reply);
  }

  lemma StartKeepsGate(s: State, id: Option<Id>, native: NativeTurn)
    requires Shaped(s) && !s.fenced && IdleIsParked(s)
    ensures IdleIsParked(OnStarted(s, id, native, false))
  {
    StartStaysOut(s, id, native, false);
  }

  lemma CompletionKeepsGate(s: State, id: Option<Id>, native: NativeTurn)
    requires Shaped(s) && !s.fenced && IdleIsParked(s)
    ensures IdleIsParked(OnCompleted(s, id, native))
  {
    if s.turn.Some? {
      TurnCompletionStaysOut(s, id, native);
    } else {
      CompletionGate(s, id, native);
    }
  }

  /** An idle runner has no turn, so little can happen to it. */
  lemma IdleKeepsGate(s: State, step: Step)
    requires Shaped(s) && QueueOrdered(s) && IdleIsParked(s) && s.point.Idle? && !s.fenced
    ensures IdleIsParked(Next(s, step))
  {
    if Enabled(s, step) {
      match step
      case Enqueue(line) => EnqueueGate(s, line);
      case SteerReplied(reply) => IdleReply(s, reply);
      case TurnStarted(id, native) => StartKeepsGate(s, id, native);
      case TurnCompleted(id, native) => CompletionKeepsGate(s, id, native);
      case _ =>
    }
  }

  lemma CompletionKeepsPoint(s: State, id: Option<Id>, native: NativeTurn)
    requires !s.point.Idle?
    ensures OnCompleted(s, id, native).point == s.point
  {
    if s.turn.Some? {
      TurnCompletionStaysOut(s, id, native);
    }
  }

  /** Only the drain loop goes idle. */
  lemma OthersStayBusy(s: State, step: Step)
    requires !s.point.Idle? && !step.AfterTurn? && !step.RootError?
    ensures !Next(s, step).point.Idle?
  {
    if Enabled(s, step) {
      match step
      case Enqueue(line) => EnqueueGate(s, line);
      case RootResponse(id, now) => ResponseStaysOut(s, id, now);
      case SteerReplied(reply) => ReplyTakesHead(s, reply);
      case TurnStarted(id, native) => StartStaysOut(s, id, native, false);
      case TurnCompleted(id, native) => CompletionKeepsPoint(s, id, native);
      case HistoryScanned(history, now) => HistoryStaysOut(s, history, now);
      case _ =>
    }
  }

  lemma {:induction false} GateKept(s: State, step: Step)
    requires Shaped(s) && QueueOrdered(s) && IdleIsParked(s)
    ensures IdleIsParked(Next(s, step))
  {
    if !Enabled(s, step) || s.fenced {
      assert Next(s, step) == s || Next(s, step).fenced;
    } else if s.point.Idle? {
      IdleKeepsGate(s, step);
    } else if step.AfterTurn? {
      LoopGate(s);
    } else if step.RootError? {
      RejectionGate(s, step.failure);
    } else {
      OthersStayBusy(s, step);
    }
  }

  lemma {:induction false} RunGated(config: Config, steps: seq<Step>)
    ensures Shaped(Run(Init(config), steps))
    ensures QueueOrdered(Run(Init(config), steps)) && IdleIsParked(Run(Init(config), steps))
  {
    RunShaped(config, steps);
    if steps != [] {
      var n := |steps| - 1;
      RunGated(config, steps[..n]);
      NextKeepsOrder(Run(Init(config), steps[..n]), steps[n]);
      GateKept(Run(Init(config), steps[..n]), steps[n]);
    }
  }

  /** In every run, an unfenced runner is idle on a non-empty queue only while a
      native turn is active that the head may not enter: nothing else is left to
      sleep. */
  lemma {:induction false} IdleOnlyBehindGoal(config: Config, steps: seq<Step>)
    requires var s := Run(Init(config), steps); !s.fenced && s.point.Idle? && s.queue != []
    ensures var s := Run(Init(config), steps); s.nativeActive.Some? && !s.queue[0].steerable
  {
    RunGated(config, steps);
  }

  /** One step of that wait: whatever happens, as long as a native turn is active
      afterwards, a head that may not be steered is still the head. */
  lemma HeadWaits(s: State, step: Step)
    requires Shaped(s) && QueueOrdered(s) && s.queue != [] && !s.queue[0].steerable && Next(s, step).nativeActive.Some?
    ensures Next(s, step).queue != [] && Next(s, step).queue[0] == s.queue[0]
  {
    QueueMoves(s, step);
  }

  lemma {:induction false} RunSplit(s: State, steps: seq<Step>, more: seq<Step>)
    ensures Run(s, steps + more) == Run(Run(s, steps), more)
  {
    if more == [] {
      assert steps + more == steps;
    } else {
      var n := |more| - 1;
      assert (steps + more)[..|steps| + n] == steps + more[..n];
      RunSplit(s, steps, more[..n]);
    }
  }

  /** In every run and every continuation of it through which some native turn
      stays active: a queue head that may not be steered stays the queue head, so
      it is neither started nor steered. */
  lemma {:induction false} PlainHeadWaitsForGoal(config: Config, steps: seq<Step>, more: seq<Step>)
    requires var s := Run(Init(config), steps); s.queue != [] && !s.queue[0].steerable
    requires forall k :: 0 < k <= |more| ==> Run(Run(Init(config), steps), more[..k]).nativeActive.Some?
    ensures var s, r := Run(Init(config), steps), Run(Run(Init(config), steps), more);
      r.queue != [] && r.queue[0] == s.queue[0]
  {
    var s := Run(Init(config), steps);
    if more != [] {
      var n := |more| - 1;
      forall k | 0 < k <= n ensures Run(s, more[..n][..k]).nativeActive.Some? {
        assert more[..n][..k] == more[..k];
      }
      PlainHeadWaitsForGoal(config, steps, more[..n]);
      RunSplit(Init(config), steps, more[..n]);
      RunGated(config, steps + more[..n]);
      assert more[..|more|] == more;
      HeadWaits(Run(s, more[..n]), more[n]);
    }
  }

  // ---------------------------------------------------------------------------
  // When the runner says that it is idle
  // ---------------------------------------------------------------------------

  /** Nothing is queued, under way or autonomous. */
  predicate Quiet(s: State) {
    !s.fenced && s.point.Idle? && s.queue == [] && s.nativeActive.None?
  }

  /** An idle state is published exactly when the timer fires on a quiet runner. */
  lemma {:induction false} IdleIsPublishedExactly(s: State, step: Step)
    ensures Next(s, step).trace.idleMarkers
         == s.trace.idleMarkers + (if step.IdleTimerFired? && s.idleTimer && Quiet(s) then 1 else 0)
  {
    if Enabled(s, step) {
      match step
      case Enqueue(line) => EnqueueGate(s, line);
      case RootResponse(id, now) => ResponseStaysOut(s, id, now);
      case RootError(failure) => RejectionGate(s, failure);
      case SteerReplied(reply) => ReplyTakesHead(s, reply);
      case TurnStarted(id, native) => StartStaysOut(s, id, native, false);
      case TurnCompleted(id, native) =>
        if s.turn.Some? {
          TurnCompletionStaysOut(s, id, native);
        } else {
          CompletionGate(s, id, native);
        }
      case HistoryScanned(history, now) => HistoryStaysOut(s, history, now);
      case AfterTurn => LoopGate(s);
      case _ =>
    }
  }

  /** And in every reachable state, a step that leaves the runner quiet, which it was
      not before, leaves the timer armed: no idle state is forgotten. */
  lemma {:induction false} QuietIsAnnounced(s: State, step: Step)
    requires Shaped(s) && QueueOrdered(s) && IdleIsParked(s) && !Quiet(s) && Quiet(Next(s, step))
    ensures Next(s, step).idleTimer
  {
    if s.point.Idle? {
      IdleGrowsQuiet(s, step);
    } else if step.AfterTurn? {
      LoopGate(s);
    } else if step.RootError? {
      if Enabled(s, step) {
        RejectionArms(s, step.failure);
      }
    } else {
      OthersStayBusy(s, step);
    }
  }

  /** A native turn that starts while no turn of the driver's own is active is
      advertised at once, and a due idle state is called off. */
  lemma GoalStartIsAnnounced(s: State, id: Id, native: NativeTurn)
    requires s.turn.None?
    ensures var r := Next(s, TurnStarted(Some(id), native));
      && r.nativeActive == Some(id) && !r.idleTimer && r.queue == s.queue && r.point == s.point
      && r.trace == s.trace.(busyMarkers := s.trace.busyMarkers + 1)
  {
  }

  /** A head that is left waiting for a native turn leaves the runner advertised as
      busy, not without a word. */
  lemma WaitingIsAnnounced(s: State)
    requires s.point.Returned? && !s.fenced && s.queue != [] && s.nativeActive.Some? && !s.queue[0].steerable
    ensures var r := Next(s, AfterTurn);
      && r.point.Idle? && r.queue == s.queue && !r.idleTimer
      && r.trace == s.trace.(busyMarkers := s.trace.busyMarkers + 1)
  {
  }

  lemma IdleGrowsQuiet(s: State, step: Step)
    requires Shaped(s) && QueueOrdered(s) && IdleIsParked(s) && s.point.Idle? && !Quiet(s) && Quiet(Next(s, step))
    ensures Next(s, step).idleTimer
  {
    if Enabled(s, step) {
      match step
      case Enqueue(line) => EnqueueGate(s, line);
      case SteerReplied(reply) => ReplyTakesHead(s, reply);
      case TurnStarted(id, native) => StartStaysOut(s, id, native, false);
      case TurnCompleted(id, native) => CompletionArms(s, id, native);
      case _ =>
    }
  }

  lemma CompletionArms(s: State, id: Option<Id>, native: NativeTurn)
    requires s.turn.None? && s.point.Idle? && Quiet(OnCompleted(s, id, native))
    ensures OnCompleted(s, id, native).idleTimer
  {
    CompletionGate(s, id, native);
  }

  lemma RejectionArms(s: State, failure: RpcFailure)
    requires s.point.AwaitRoot? && s.turn.Some? && Quiet(OnRootError(s, failure))
    ensures OnRootError(s, failure).idleTimer
  {
    RejectionGate(s, failure);
  }
}
