/**
 The ordered-steer driver as the source writes it: one mutable runner, one
 mutable active turn, and handlers that update both in place. Every handler is
 proved to do to the runner's `View` exactly what `RunnerSteps.Next` says.
 */
module RunnerDriver {
  import opened Options
  import opened GroupIdentity
  import opened RunnerSteps

  /** The active turn; its fields are grouped as in `RunnerSteps.Turn`. */
  class ActiveTurn {
    const epoch: nat
    const clientId: Option<Id>
    var phase: Phase
    var request: Request
    var identity: Identity
    var buffers: Buffers
    var texts: Texts
    var group: Group
    var settlement: Settlement

    constructor (epoch: nat, root: Dispatch, expected: Option<Id>)
      ensures View() == Turn(
        epoch, root.clientId, Starting,
        Request(if expected.Some? then SteerRequest else StartRequest, false, expected.None?, expected.Some?),
        Identity(expected, None, None), Buffers([], []), Texts(Nothing, ""), Group([root], false, false),
        Settlement(false, None, NoScan, None, false, false))
    {
      this.epoch, clientId, phase := epoch, root.clientId, Starting;
      request := Request(if expected.Some? then SteerRequest else StartRequest, false, expected.None?, expected.Some?);
      identity := Identity(expected, None, None);
      buffers, texts := Buffers([], []), Texts(Nothing, "");
      group := Group([root], false, false);
      settlement := Settlement(false, None, NoScan, None, false, false);
    }

    function View(): Turn
      reads this
    {
      Turn(epoch, clientId, phase, request, identity, buffers, texts, group, settlement)
    }

    /** Keep the newest completion, but never a foreign one over a canonical one. */
    method Buffer(id: Option<Id>, native: NativeTurn)
      modifies this`group, this`settlement
      ensures View() == BufferCompletion(old(View()), id, native)
    {
      group := group.(closed := true);
      settlement := settlement.(completionSeen := true);
      var buffered := if settlement.terminal.Some? then settlement.terminal.value.id else None;
      if settlement.terminal.None? || id == identity.canonical || buffered != identity.canonical {
        settlement := settlement.(terminal := Some(native));
      }
    }

    method Bind(id: Option<Id>)
      modifies this`identity, this`request, this`phase
      ensures View() == BoundTurn(old(View()), id)
    {
      identity := identity.(nativeId := id);
      request := request.(accepted := true, pending := false);
      if !settlement.completed && id.Some? {
        identity := identity.(canonical := id);
        if identity.proof.None? {
          identity := identity.(proof := Some(if request.kind == SteerRequest then GoalSnapshot else StartResponse));
        }
        if phase == Starting {
          phase := Open;
        }
      }
    }

    method OpenOn(id: Id)
      modifies this`identity, this`phase
      ensures View() == OpenStarted(old(View()), id)
    {
      if identity.nativeId.None? {
        identity := identity.(nativeId := Some(id));
      }
      if phase == Starting {
        phase := Open;
      }
    }

    method Reset()
      modifies this`request, this`identity, this`buffers, this`texts
      ensures View() == ResetForStart(old(View()))
    {
      request := request.(kind := StartRequest, serverStarted := false);
      identity := identity.(nativeId := None);
      buffers, texts := Buffers([], []), Texts(Nothing, "");
    }

    method Advance(effect: ProgressEffect, deadline: int)
      modifies this`settlement, this`texts
      ensures View() == Advanced(old(View()), effect, deadline)
    {
      if settlement.deadline.Some? {
        settlement := settlement.(deadline := Some(deadline));
      }
      texts := Rendered(texts, effect);
    }

    method Keep(note: Notification)
      modifies this`buffers
      ensures View() == old(View()).(buffers := old(buffers).(notes := old(buffers).notes + [note]))
    {
      buffers := buffers.(notes := buffers.notes + [note]);
    }

    method CompleteOn(native: NativeTurn, exactIndex: Option<nat>)
      modifies this`texts, this`identity, this`settlement
      ensures View() == CompletedOn(old(View()), native, exactIndex)
    {
      if exactIndex.Some? {
        texts := Texts(Rebuild(native, exactIndex.value), "");
      } else if native.error.Some? && texts.final == Nothing {
        texts := texts.(final := NativeFailure(native.error.value));
      }
      if native.id.Some? {
        identity := identity.(nativeId := native.id);
      }
      settlement := settlement.(completed := true);
    }

    method Conflict(reason: Reason)
      modifies this`texts, this`settlement
      ensures View() == Conflicted(old(View()), reason)
    {
      texts := Texts(Answer.Conflict(reason), "");
      settlement := settlement.(conflictReported := true, completed := true);
    }

    method CloseOn(native: NativeTurn, verdict: Verdict)
      modifies this`texts, this`settlement, this`phase
      ensures View() == ClosedOn(old(View()), native, verdict)
    {
      if verdict.Last? {
        texts := Texts(Rebuild(native, verdict.index), "");
      }
      settlement := settlement.(terminal := Some(native), completed := true);
      phase := Closing;
    }

    method WaitFor(keepPending: bool, deadline: Option<int>)
      modifies this`settlement
      ensures View() == old(View()).(settlement := old(settlement).(scan := SingleScan(keepPending), deadline := deadline))
    {
      settlement := settlement.(scan := SingleScan(keepPending), deadline := deadline);
    }

    method Complete()
      modifies this`settlement
      ensures settlement == old(settlement).(completed := true)
    {
      settlement := settlement.(completed := true);
    }
  }

  lemma ScannedOneMore(history: seq<NativeTurn>, k: nat, clientId: Option<Id>, nativeId: Option<Id>)
    requires k < |history|
    ensures history[..k + 1][..k] == history[..k]
    ensures Repeats(history[..k + 1], clientId)
       <==> Repeats(history[..k], clientId) || (Terminal(history[k]) && |Exact(history[k], clientId)| > 1)
    ensures Repeats(history[..k + 1], clientId) ==> Repeats(history, clientId)
    ensures OwnTerminal(history[..k + 1], nativeId)
       <==> OwnTerminal(history[..k], nativeId) || (nativeId.Some? && Terminal(history[k]) && history[k].id == nativeId)
  {
    var longer, shorter := history[..k + 1], history[..k];
    assert forall i :: 0 <= i < k ==> longer[i] == shorter[i] == history[i];
    assert longer[k] == history[k];
  }

  /** What a suspended `tryAdmitSteer` holds besides its turn. */
  datatype SteerFrame = SteerFrame(dispatch: Dispatch, expected: Id)

  class Runner {
    const config: Config
    var queue: seq<Input>
    var point: Point
    var activeTurn: ActiveTurn?
    var epoch: nat
    var nativeActive: Option<Id>
    var steerTurn: ActiveTurn?
    var steerFrame: Option<SteerFrame>
    var fenced: bool
    var cleanInputUnsupported: bool
    var idleTimer: bool
    var nextSerial: nat
    ghost var received: seq<Input>
    ghost var finals: seq<Final>
    ghost var trace: Trace

    ghost predicate Valid()
      reads this, activeTurn, steerTurn
    {
      && nextSerial == |received|
      && (activeTurn != null ==> activeTurn.epoch <= epoch)
      && (steerFrame.Some? <==> steerTurn != null)
      && (steerTurn != null ==> steerTurn.epoch <= epoch)
      && (steerTurn != null && activeTurn != null && steerTurn.epoch == activeTurn.epoch ==> steerTurn == activeTurn)
    }

    ghost function View(): State
      reads this, activeTurn, steerTurn
    {
      State(config, queue, point, if activeTurn == null then None else Some(activeTurn.View()), epoch, nativeActive,
            if steerTurn == null || steerFrame.None? then None
            else Some(SteerCall(steerTurn.epoch, steerFrame.value.dispatch, steerFrame.value.expected)),
            fenced, cleanInputUnsupported, idleTimer, received, finals, trace)
    }

    /** Neither the active nor the steered turn object is exchanged. */
    twostate predicate SameTurns()
      reads this
    {
      activeTurn == old(activeTurn) && steerTurn == old(steerTurn)
    }

    constructor (config: Config)
      ensures Valid() && View() == Init(config)
    {
      this.config, queue, point, activeTurn, epoch, nativeActive := config, [], Idle, null, 0, None;
      steerTurn, steerFrame, fenced, cleanInputUnsupported, idleTimer := null, None, false, false, false;
      nextSerial, received, finals, trace := 0, [], [], Trace([], [], 0, 0, [], []);
    }

    // -------------------------------------------------------------------------
    // Shared effects
    // -------------------------------------------------------------------------

    method FenceUnknown(turn: ActiveTurn)
      modifies this`fenced, turn`phase
      ensures fenced && turn.phase == (if old(fenced) then old(turn.phase) else Fenced)
    {
      if fenced {
        return;
      }
      fenced := true;
      turn.phase := Phase.Fenced;
    }

    method FenceActive(turn: ActiveTurn)
      requires Valid() && turn == activeTurn
      modifies this`fenced, turn
      ensures Valid() && View() == FenceAndSettle(old(View()))
    {
      FenceUnknown(turn);
      if !turn.settlement.completed {
        turn.Complete();
      }
    }

    method ReleaseNative(id: Option<Id>)
      requires Valid()
      modifies this`nativeActive
      ensures Valid() && View() == old(View()).(nativeActive := Released(old(View()), id))
    {
      if id.Some? && nativeActive == id {
        nativeActive := None;
      }
    }

    method CompleteActiveTurnFromNative(turn: ActiveTurn, native: NativeTurn, exactIndex: Option<nat>)
      requires Valid() && turn == activeTurn
      modifies this`nativeActive, turn
      ensures Valid() && View() == CompleteFromNative(old(View()), native, exactIndex)
    {
      if turn.settlement.completed || !Terminal(native) {
        return;
      }
      turn.CompleteOn(native, exactIndex);
      ReleaseNative(native.id);
    }

    method ReportIdentityConflict(turn: ActiveTurn, reason: Reason)
      requires Valid() && turn == activeTurn
      modifies this`nativeActive, this`trace, turn
      ensures Valid() && View() == ReportConflict(old(View()), reason)
    {
      if turn.settlement.conflictReported {
        return;
      }
      turn.Conflict(reason);
      trace := trace.(conflicts := trace.conflicts + [reason]);
      ReleaseNative(turn.identity.nativeId);
    }

    method SettleSteeredCompletion(turn: ActiveTurn, native: NativeTurn)
      requires Valid() && turn == activeTurn
      modifies this`nativeActive, this`trace, turn
      ensures Valid() && View() == SettleSteered(old(View()), native)
    {
      if turn.settlement.completed {
        return;
      }
      var verdict := VerifyGroupSubsequence(SentIds(turn.group.members), native);
      if verdict.Mismatch? {
        ReportIdentityConflict(turn, verdict.reason);
        return;
      }
      turn.CloseOn(native, verdict);
      if native.id.Some? && nativeActive == native.id {
        nativeActive := None;
      }
    }

    method ReconcileSteeredGroup(turn: ActiveTurn)
      requires Valid() && turn == activeTurn
      modifies turn
      ensures Valid() && View() == StartGroupScan(old(View()))
    {
      if turn.settlement.scan != NoScan || turn.settlement.completed {
        return;
      }
      turn.settlement := turn.settlement.(scan := GroupScan);
    }

    method ReconcileCompletedTurn(turn: ActiveTurn, keepPending: bool, now: int)
      requires Valid() && turn == activeTurn
      modifies this`nativeActive, this`trace, turn
      ensures Valid() && View() == StartSingleScan(old(View()), keepPending, now)
    {
      if turn.settlement.scan != NoScan || turn.settlement.completed {
        return;
      }
      if turn.clientId.None? {
        ReportIdentityConflict(turn, LegacyInput);
        return;
      }
      AwaitLookup(turn, keepPending, now);
    }

    /** The lookup owns the turn; a wait for a known native turn has a deadline. */
    method AwaitLookup(turn: ActiveTurn, keepPending: bool, now: int)
      requires Valid() && turn == activeTurn
      modifies this`trace, turn
      ensures Valid()
      ensures var s := old(View()); var t := s.turn.value;
        var arms := keepPending && t.identity.nativeId.Some?;
        var waiting := t.settlement.(
          scan := SingleScan(keepPending),
          deadline := if arms then Some(now + s.config.keepPendingWindow) else t.settlement.deadline);
        View() == s.(turn := Some(t.(settlement := waiting)), trace := if arms then Signed(s.trace, Armed(now)) else s.trace)
    {
      if keepPending && turn.identity.nativeId.Some? {
        turn.WaitFor(keepPending, Some(now + config.keepPendingWindow));
        trace := Signed(trace, Armed(now));
      } else {
        turn.WaitFor(keepPending, turn.settlement.deadline);
      }
    }

    method SettleByIdentity(turn: ActiveTurn)
      requires Valid() && turn == activeTurn && turn.settlement.terminal.Some?
      modifies this`nativeActive, this`trace, turn
      ensures Valid() && View() == SettleBuffered(old(View()))
    {
      var native := turn.settlement.terminal.value;
      if native.id.Some? && native.id == turn.identity.canonical {
        SettleSteeredCompletion(turn, native);
      } else {
        ReconcileSteeredGroup(turn);
      }
    }

    method ResumeBufferedGroupCompletion(turn: ActiveTurn) returns (resumed: bool)
      requires Valid()
      modifies this`nativeActive, this`trace, turn
      ensures Valid()
      ensures turn == activeTurn ==> resumed == CanResume(old(View())) && View() == ResumeBuffered(old(View()))
      ensures turn != activeTurn ==> !resumed && View() == old(View())
    {
      if activeTurn != turn
         || turn.settlement.completed
         || !InGroupMode(turn.View())
         || !turn.settlement.completionSeen
         || turn.settlement.terminal.None?
         || turn.group.steerInFlight
         || turn.request.pending {
        return false;
      }
      SettleByIdentity(turn);
      return true;
    }

    /** `tryAdmitSteer` up to the RPC. */
    method TryAdmitSteer()
      requires Valid()
      modifies this`steerTurn, this`steerFrame, this`trace, activeTurn
      ensures Valid() && View() == TryAdmit(old(View()))
      ensures activeTurn == old(activeTurn)
      ensures steerTurn == old(steerTurn) || steerTurn == activeTurn
    {
      var turn := activeTurn;
      if turn == null || |queue| == 0 {
        return;
      }
      var head := queue[0];
      if !(&& !fenced && !turn.settlement.completed && turn.phase != Phase.Fenced && turn.phase != Closing
           && !turn.group.closed && !turn.group.steerInFlight && steerTurn == null
           && turn.identity.canonical.Some? && SteerableRoot(turn.View()) && head.steerable) {
        return;
      }
      var expected := turn.identity.canonical.value;
      var dispatch := Dispatch(head, ClientIdFor(head));
      steerTurn, steerFrame := turn, Some(SteerFrame(dispatch, expected));
      turn.group := turn.group.(steerInFlight := true);
      trace := Sent(trace, SteerSent(head, expected));
    }

    function ClientIdFor(input: Input): (r: Option<Id>)
      reads this, activeTurn, steerTurn
      ensures r == RequestClientId(View(), input)
    {
      if input.sidecar.None? then None
      else if !cleanInputUnsupported && config.clientIds && input.replyTurnId.Some? then input.replyTurnId
      else input.sidecar.value.clientId
    }

    // -------------------------------------------------------------------------
    // The drain loop and the runner state
    // -------------------------------------------------------------------------

    method SettleRunnerState()
      requires Valid()
      modifies this`idleTimer, this`trace
      ensures Valid() && View() == RunnerSteps.SettleRunnerState(old(View()))
    {
      if fenced {
        return;
      }
      if nativeActive.Some? {
        idleTimer := false;
        trace := Marked(trace, true);
        return;
      }
      idleTimer := true;
    }

    /** The loop test of `drainQueue`, and the shift that feeds `runTurn`. */
    method TestDrainLoop()
      requires Valid()
      modifies this`queue, this`point
      ensures Valid() && View() == DrainLoop(old(View()))
    {
      if |queue| == 0 || fenced || (nativeActive.Some? && !queue[0].steerable) {
        point := Idle;
        return;
      }
      var next := queue[0];
      queue := queue[1..];
      point := Launching(next);
    }

    method DrainQueue()
      requires Valid()
      modifies this`queue, this`point
      ensures Valid() && View() == Drain(old(View()))
    {
      if point != Idle {
        return;
      }
      TestDrainLoop();
    }

    /** The tail of one iteration, once `runTurn` has returned. */
    method AfterTurn()
      requires Valid()
      modifies this`queue, this`point, this`idleTimer, this`trace
      ensures Valid() && View() == Drained(old(View()))
    {
      if |queue| == 0 || (nativeActive.Some? && !queue[0].steerable) {
        SettleRunnerState();
      }
      TestDrainLoop();
    }

    method EnqueueLine(line: Line)
      requires Valid()
      modifies this, activeTurn
      ensures Valid() && View() == OnEnqueue(old(View()), line)
      ensures activeTurn == old(activeTurn)
      ensures steerTurn == old(steerTurn) || steerTurn == activeTurn
    {
      PushLine(line);
      if line.Framed? {
        TryAdmitSteer();
      }
      DrainQueue();
    }

    method PushLine(line: Line)
      requires Valid()
      modifies this`queue, this`nextSerial, this`received
      ensures Valid() && View() == Pushed(old(View()), line)
    {
      var input;
      match line {
        case Framed(content, reply, sidecar, steerable) =>
          input := Input(nextSerial, content, if reply.None? && sidecar.Some? then sidecar.value.clientId else reply,
                         sidecar, steerable);
        case Plain(content) =>
          input := Input(nextSerial, content, None, None, false);
      }
      queue, nextSerial := queue + [input], nextSerial + 1;
      received := received + [input];
    }

    method IdleTimerFired()
      requires Valid() && idleTimer
      modifies this`idleTimer, this`trace
      ensures Valid() && View() == OnIdleTimer(old(View()))
    {
      idleTimer := false;
      if fenced {
        return;
      }
      trace := Marked(trace, point != Idle || |queue| > 0 || nativeActive.Some?);
    }

    // -------------------------------------------------------------------------
    // Notifications
    // -------------------------------------------------------------------------

    method ExactIndexesFor(native: NativeTurn, clientId: Option<Id>) returns (indexes: seq<nat>)
      ensures indexes == Exact(native, clientId)
    {
      if clientId.None? {
        return [];
      }
      indexes := ExactClientItemIndexes(native, clientId.value);
    }

    method ProveCanonicalExact(turn: ActiveTurn, id: Id, proof: Proof) returns (proceed: bool)
      requires Valid() && turn == activeTurn
      modifies this`fenced, turn
      ensures Valid() && (View(), proceed) == ProveExact(old(View()), id, proof)
    {
      if turn.identity.canonical.None? {
        turn.identity := turn.identity.(canonical := Some(id), proof := Some(proof));
        return true;
      }
      if turn.identity.canonical == Some(id) {
        return true;
      }
      FenceActive(turn);
      return false;
    }

    method UntrackedStart()
      requires Valid()
      modifies this`idleTimer, this`trace
      ensures Valid() && View() == RunnerSteps.UntrackedStart(old(View()))
    {
      idleTimer := false;
      trace := Marked(trace, true);
    }

    method TrackStarted(turn: ActiveTurn, id: Id, native: NativeTurn)
      requires Valid() && turn == activeTurn
      modifies this, turn
      ensures Valid() && View() == RunnerSteps.TrackStarted(old(View()), id, native)
      ensures activeTurn == old(activeTurn) && (steerTurn == old(steerTurn) || steerTurn == activeTurn)
    {
      if turn.identity.nativeId == Some(id) {
        turn.request := turn.request.(serverStarted := true);
        if ExactlyProven(turn.View()) && !turn.settlement.completed {
          TryAdmitSteer();
        }
        return;
      }
      if !turn.request.accepted && turn.request.kind == StartRequest {
        if !AlreadyBuffered(turn.View(), id) {
          HoldNote(turn, StartedNote(id, native));
        }
        return;
      }
      UntrackedStart();
    }

    method TurnStarted(id: Option<Id>, native: NativeTurn, replayed: bool)
      requires Valid()
      modifies this, activeTurn
      ensures Valid() && View() == OnStarted(old(View()), id, native, replayed)
      ensures activeTurn == old(activeTurn) && (steerTurn == old(steerTurn) || steerTurn == activeTurn)
    {
      NoteNative(id, replayed);
      var turn := activeTurn;
      if turn == null || id.None? {
        UntrackedStart();
        return;
      }
      TrackActive(turn, id.value, native);
    }

    method NoteNative(id: Option<Id>, replayed: bool)
      requires Valid()
      modifies this`nativeActive
      ensures Valid()
      ensures var s := old(View());
        View() == if id.Some? && (!replayed || s.nativeActive.None? || s.nativeActive == id) then s.(nativeActive := id) else s
    {
      if id.Some? && (!replayed || nativeActive.None? || nativeActive == id) {
        nativeActive := id;
      }
    }

    method TrackActive(turn: ActiveTurn, id: Id, native: NativeTurn)
      requires Valid() && turn == activeTurn
      modifies this, turn
      ensures Valid() && View() == Tracked(old(View()), id, native)
      ensures activeTurn == old(activeTurn) && (steerTurn == old(steerTurn) || steerTurn == activeTurn)
    {
      var exact := ExactIndexesFor(native, turn.clientId);
      if |exact| == 1 {
        var proceed := ProveCanonicalExact(turn, id, ExactStarted);
        if !proceed {
          return;
        }
        OpenTurn(turn, id);
      }
      TrackStarted(turn, id, native);
    }

    /** The exact start also names the native turn and opens the group. */
    method OpenTurn(turn: ActiveTurn, id: Id)
      requires Valid() && turn == activeTurn
      modifies turn
      ensures Valid() && View() == WithTurn(old(View()), OpenStarted(old(turn.View()), id))
    {
      turn.OpenOn(id);
    }

    method TurnCompleted(id: Option<Id>, native: NativeTurn)
      requires Valid()
      modifies this, activeTurn
      ensures Valid() && View() == OnCompleted(old(View()), id, native)
      ensures SameTurns()
    {
      ReleaseNative(id);
      var turn := activeTurn;
      if turn == null {
        UntrackedCompleted();
        return;
      }
      if InGroupMode(turn.View()) {
        GroupTurnCompleted(turn, id, native);
      } else {
        SingleTurnCompleted(turn, id, native);
      }
    }

    /** An autonomous turn ended: whatever was parked behind it may start. */
    method UntrackedCompleted()
      requires Valid() && activeTurn == null
      modifies this`queue, this`point, this`idleTimer, this`trace
      ensures Valid()
      ensures var s := RunnerSteps.SettleRunnerState(old(View()));
        View() == if s.queue != [] && s.nativeActive.None? then Drain(s) else s
    {
      SettleRunnerState();
      if |queue| > 0 && nativeActive.None? {
        DrainQueue();
      }
    }

    method GroupTurnCompleted(turn: ActiveTurn, id: Option<Id>, native: NativeTurn)
      requires Valid() && turn == activeTurn
      modifies this`nativeActive, this`trace, turn
      ensures Valid() && View() == GroupCompleted(old(View()), id, native)
    {
      turn.Buffer(id, native);
      assert View() == WithTurn(old(View()), BufferCompletion(old(turn.View()), id, native));
      if turn.group.steerInFlight || turn.request.pending {
        return;
      }
      if turn.identity.canonical.Some? && id == turn.identity.canonical {
        SettleSteeredCompletion(turn, native);
      } else {
        ReconcileSteeredGroup(turn);
      }
    }

    method SingleTurnCompleted(turn: ActiveTurn, id: Option<Id>, native: NativeTurn)
      requires Valid() && turn == activeTurn
      modifies this`fenced, this`nativeActive, this`trace, turn
      ensures Valid() && View() == SingleCompleted(old(View()), id, native)
    {
      var exact := ExactIndexesFor(native, turn.clientId);
      if |exact| == 1 && !turn.request.accepted && turn.request.pending && SteerableRoot(turn.View()) && id.Some? {
        UpgradeToProof(turn, id.value, native);
        return;
      }
      if |exact| == 1 {
        CompleteActiveTurnFromNative(turn, native, Some(exact[0]));
      } else if !turn.request.accepted {
        HoldCompletion(turn, native);
      } else if turn.identity.nativeId.Some? && id == turn.identity.nativeId && turn.request.kind == StartRequest {
        CompleteActiveTurnFromNative(turn, native, None);
      } else {
        ReconcileCompletedTurn(turn, false, 0);
      }
    }

    method HoldCompletion(turn: ActiveTurn, native: NativeTurn)
      requires Valid() && turn == activeTurn
      modifies turn
      ensures Valid()
      ensures var t := old(turn.View());
        View() == WithTurn(old(View()), t.(buffers := t.buffers.(completions := t.buffers.completions + [native])))
    {
      turn.buffers := turn.buffers.(completions := turn.buffers.completions + [native]);
    }

    /** The completion is held as a proof until the start response agrees. */
    method UpgradeToProof(turn: ActiveTurn, id: Id, native: NativeTurn)
      requires Valid() && turn == activeTurn
      modifies this`fenced, turn
      ensures Valid()
      ensures var (s, proceed) := ProveExact(old(View()), id, ExactCompleted);
        View() == if proceed then WithTurn(s, Recorded(s.turn.value, native)) else s
    {
      var proceed := ProveCanonicalExact(turn, id, ExactCompleted);
      if proceed {
        turn.group := turn.group.(closed := true);
        turn.settlement := turn.settlement.(completionSeen := true, terminal := Some(native));
      }
    }

    method Progress(id: Option<Id>, effect: ProgressEffect, now: int)
      requires Valid()
      modifies this`trace, activeTurn
      ensures Valid() && View() == OnProgress(old(View()), id, effect, now)
    {
      var turn := activeTurn;
      if turn == null {
        return;
      }
      if !turn.request.accepted {
        if turn.request.kind == StartRequest && id.Some? {
          HoldNote(turn, ProgressNote(id.value, effect));
        }
        return;
      }
      if turn.identity.nativeId.Some? && id.Some? && id != turn.identity.nativeId {
        return;
      }
      Advance(turn, effect, now);
    }

    method HoldNote(turn: ActiveTurn, note: Notification)
      requires Valid() && turn == activeTurn
      modifies turn
      ensures Valid()
      ensures var t := old(turn.View());
        View() == WithTurn(old(View()), t.(buffers := t.buffers.(notes := t.buffers.notes + [note])))
    {
      turn.Keep(note);
    }

    method Advance(turn: ActiveTurn, effect: ProgressEffect, now: int)
      requires Valid() && turn == activeTurn
      modifies this`trace, turn
      ensures Valid()
      ensures var s := old(View());
        View() == s.(turn := Some(Advanced(s.turn.value, effect, now + s.config.keepPendingWindow)),
                     trace := if s.turn.value.settlement.deadline.Some? then Signed(s.trace, Progressed(now)) else s.trace)
    {
      if turn.settlement.deadline.Some? {
        trace := Signed(trace, Progressed(now));
      }
      turn.Advance(effect, now + config.keepPendingWindow);
    }

    // -------------------------------------------------------------------------
    // The root RPC
    // -------------------------------------------------------------------------

    /** `runTurn` up to its RPC. */
    method Launch()
      requires Valid() && point.Launching?
      modifies this
      ensures Valid() && View() == OnLaunch(old(View()))
      ensures fresh(activeTurn) && steerTurn == old(steerTurn)
    {
      var input := point.next;
      var expected := nativeActive;
      var clientId := ClientIdFor(input);
      epoch := epoch + 1;
      activeTurn := new ActiveTurn(epoch, Dispatch(input, clientId), expected);
      SendRoot(RootCall(input, expected, false, false, input.sidecar.Some? && !cleanInputUnsupported && config.cleanInput));
    }

    method SendRoot(call: RootCall)
      requires Valid()
      modifies this`point, this`trace
      ensures Valid()
      ensures var s := old(View()); View() == s.(point := AwaitRoot(call), trace := Sent(s.trace, RootSend(call)))
    {
      point := AwaitRoot(call);
      trace := Sent(trace, RootSend(call));
    }

    method RootResponse(id: Option<Id>, now: int)
      requires Valid() && point.AwaitRoot? && activeTurn != null
      modifies this, activeTurn
      ensures Valid() && View() == OnRootResponse(old(View()), id, now)
      ensures activeTurn == old(activeTurn) && (steerTurn == old(steerTurn) || steerTurn == activeTurn)
    {
      var turn := activeTurn;
      var responseId := if id.Some? then id else turn.identity.nativeId;
      if ResponseContradicts(turn.View(), responseId) {
        RefuseResponse(turn);
        return;
      }
      var completions := turn.buffers.completions;
      AcceptResponse(turn, responseId, now);
      ConcludeResponse(turn, completions, now);
    }

    /** Buffered completions first, and only then the next follow-up. */
    method ConcludeResponse(turn: ActiveTurn, completions: seq<NativeTurn>, now: int)
      requires Valid() && turn == activeTurn
      modifies this, turn
      ensures Valid()
      ensures var r := SettlePending(old(View()), completions, now);
        View() == if !r.turn.value.settlement.completed && r.turn.value.settlement.scan == NoScan then TryAdmit(r) else r
      ensures activeTurn == turn && (steerTurn == old(steerTurn) || steerTurn == activeTurn)
    {
      ReplayCompletions(turn, completions, now);
      if !turn.settlement.completed && turn.settlement.scan == NoScan {
        TryAdmitSteer();
      }
    }

    method RefuseResponse(turn: ActiveTurn)
      requires Valid() && turn == activeTurn
      modifies this`fenced, this`point, turn
      ensures Valid() && var t := old(turn.View());
        View() == FenceAndSettle(WithTurn(old(View()), t.(request := t.request.(pending := false)))).(point := Returned)
    {
      turn.request := turn.request.(pending := false);
      FenceActive(turn);
      point := Returned;
    }

    method AcceptResponse(turn: ActiveTurn, id: Option<Id>, now: int)
      requires Valid() && turn == activeTurn
      modifies this, turn
      ensures Valid() && View() == Settled(old(View()), id, now)
      ensures activeTurn == turn && (steerTurn == old(steerTurn) || steerTurn == activeTurn)
    {
      BindResponse(turn, id);
      SettleResponse(turn);
      ReplayNotes(turn, now);
      turn.buffers := turn.buffers.(completions := []);
    }

    method BindResponse(turn: ActiveTurn, id: Option<Id>)
      requires Valid() && turn == activeTurn
      modifies this`point, this`nativeActive, turn
      ensures Valid() && View() == Bound(old(View()), id)
      ensures turn.buffers == old(turn.buffers)
    {
      point := AwaitDone;
      turn.Bind(id);
      if !turn.settlement.completed && id.Some? && (nativeActive.None? || nativeActive == id) {
        nativeActive := id;
      }
    }

    /** Settle what the start response was holding back. */
    method SettleResponse(turn: ActiveTurn)
      requires Valid() && turn == activeTurn
      modifies this`nativeActive, this`trace, turn
      ensures Valid() && View() == SettleAfterResponse(old(View()))
    {
      var settleBuffered := SettlesBufferedCanonical(turn.View());
      var resumed := ResumeBufferedGroupCompletion(turn);
      if settleBuffered {
        SettleSteeredCompletion(turn, turn.settlement.terminal.value);
      }
    }

    method ReplayNotes(turn: ActiveTurn, now: int)
      requires Valid() && turn == activeTurn
      modifies this, turn
      ensures Valid() && activeTurn == turn && (steerTurn == old(steerTurn) || steerTurn == activeTurn)
      ensures var s := old(View());
        View() == ReplayAll(WithTurn(s, s.turn.value.(buffers := s.turn.value.buffers.(notes := []))), s.turn.value.buffers.notes, now)
    {
      var notes := turn.buffers.notes;
      turn.buffers := turn.buffers.(notes := []);
      ghost var start := View();
      for index := 0 to |notes|
        invariant Valid() && activeTurn == turn && (steerTurn == old(steerTurn) || steerTurn == activeTurn)
        invariant ReplayAll(start, notes, now) == ReplayAll(View(), notes[index..], now)
      {
        assert notes[index..][0] == notes[index] && notes[index..][1..] == notes[index + 1..];
        if Some(notes[index].id) == turn.identity.nativeId {
          ReplayNote(notes[index], now);
        }
      }
    }

    method ReplayNote(note: Notification, now: int)
      requires Valid() && activeTurn != null
      modifies this, activeTurn
      ensures Valid() && View() == Replayed(old(View()), note, now)
      ensures activeTurn == old(activeTurn) && (steerTurn == old(steerTurn) || steerTurn == activeTurn)
    {
      match note {
        case StartedNote(id, native) => TurnStarted(Some(id), native, true);
        case ProgressNote(id, effect) => Progress(Some(id), effect, now);
      }
    }

    method ReplayCompletions(turn: ActiveTurn, pending: seq<NativeTurn>, now: int)
      requires Valid() && turn == activeTurn
      modifies this`nativeActive, this`trace, turn
      ensures Valid() && View() == SettlePending(old(View()), pending, now)
    {
      if |pending| == 0 || turn.settlement.completed {
        return;
      }
      var exact, mine := CandidateCompletions(pending, turn.clientId, turn.identity.nativeId);
      if |exact| == 1 {
        var indexes := ExactIndexesFor(exact[0], turn.clientId);
        CompleteActiveTurnFromNative(turn, exact[0], Some(indexes[0]));
      } else if |exact| > 1 || |mine| > 1 {
        ReportIdentityConflict(turn, ManyMatches);
      } else if turn.request.kind == SteerRequest && |mine| == 1 {
        ReconcileCompletedTurn(turn, false, now);
      } else if turn.request.kind == StartRequest && |mine| == 1 {
        CompleteActiveTurnFromNative(turn, mine[0], None);
      } else {
        ReconcileCompletedTurn(turn, true, now);
      }
    }

    method CandidateCompletions(pending: seq<NativeTurn>, clientId: Option<Id>, nativeId: Option<Id>)
      returns (exact: seq<NativeTurn>, mine: seq<NativeTurn>)
      ensures exact == ExactMatches(pending, clientId) && mine == NativeMatches(pending, nativeId)
    {
      exact, mine := [], [];
      for index := 0 to |pending|
        invariant exact == ExactMatches(pending[..index], clientId) && mine == NativeMatches(pending[..index], nativeId)
      {
        assert pending[..index + 1][..index] == pending[..index];
        var indexes := ExactIndexesFor(pending[index], clientId);
        if |indexes| == 1 {
          exact := exact + [pending[index]];
        }
        if pending[index].id == nativeId {
          mine := mine + [pending[index]];
        }
      }
      assert pending[..|pending|] == pending;
    }

    method RootError(failure: RpcFailure)
      requires Valid() && point.AwaitRoot? && activeTurn != null
      modifies this, activeTurn
      ensures Valid() && View() == OnRootError(old(View()), failure)
      ensures (activeTurn == old(activeTurn) || activeTurn == null) && steerTurn == old(steerTurn)
    {
      var turn := activeTurn;
      var call := point.call;
      if call.expected.Some? && !call.fellBack && nativeActive.None? && failure.serverError && failure.expectedTurnInactive {
        FallBackToStart(turn, call);
      } else if call.retried || !call.structured || (call.expected.None? && turn.request.serverStarted) || !failure.capability {
        RootFailed(turn, call, failure);
      } else {
        RetryWithLegacyPrompt(call);
      }
    }

    method RetryWithLegacyPrompt(call: RootCall)
      requires Valid()
      modifies this`cleanInputUnsupported, this`point, this`trace
      ensures Valid()
      ensures var s := old(View());
        View() == s.(cleanInputUnsupported := true, point := AwaitRoot(call.(retried := true, structured := false)),
                     trace := Sent(s.trace, RootSend(call)))
    {
      cleanInputUnsupported := true;
      point := AwaitRoot(call.(retried := true, structured := false));
      trace := Sent(trace, RootSend(call));
    }

    method FallBackToStart(turn: ActiveTurn, call: RootCall)
      requires Valid() && turn == activeTurn
      modifies this`point, this`trace, turn
      ensures Valid()
      ensures var s := old(View());
        View() == s.(turn := Some(ResetForStart(s.turn.value)), point := AwaitRoot(call.(expected := None, fellBack := true)),
                     trace := Sent(s.trace, StartSent(call.input)))
    {
      point := AwaitRoot(call.(expected := None, fellBack := true));
      turn.Reset();
      trace := Sent(trace, StartSent(call.input));
    }

    /** The failure branch of the retry loop and the drain loop's `catch`. */
    method RootFailed(turn: ActiveTurn, call: RootCall, failure: RpcFailure)
      requires Valid() && turn == activeTurn && point == AwaitRoot(call)
      requires !FallsBack(View(), call, failure) && !RetriesLegacy(View(), call, failure)
      modifies this, turn
      ensures Valid() && View() == OnRootError(old(View()), failure)
      ensures (activeTurn == turn || activeTurn == null) && steerTurn == old(steerTurn)
    {
      if PositiveEvidence(turn.View()) || !failure.serverError {
        FenceRoot(turn);
        return;
      }
      CatchFailure(call.input);
    }

    method FenceRoot(turn: ActiveTurn)
      requires Valid() && turn == activeTurn
      modifies this`fenced, this`point, turn
      ensures Valid() && View() == FenceAndSettle(old(View())).(point := Returned)
    {
      FenceActive(turn);
      point := Returned;
    }

    /** The drain loop's `catch`: one failure final, unless fenced. */
    method CatchFailure(input: Input)
      requires Valid()
      modifies this
      ensures Valid() && activeTurn == null && steerTurn == old(steerTurn)
      ensures var s := old(View());
        View() == if s.fenced then s.(turn := None, point := Idle)
                  else Drained(s.(turn := None, point := Returned, finals := s.finals + [Final(input, RunnerFailure, RunnerError)]))
    {
      activeTurn := null;
      if fenced {
        point := Idle;
        return;
      }
      finals := finals + [Final(input, RunnerFailure, RunnerError)];
      point := Returned;
      AfterTurn();
    }

    // -------------------------------------------------------------------------
    // The steer RPC
    // -------------------------------------------------------------------------

    method SteerReplied(reply: SteerReply)
      requires Valid() && steerFrame.Some?
      modifies this, activeTurn, steerTurn
      ensures Valid() && View() == OnSteerReply(old(View()), reply)
      ensures activeTurn == old(activeTurn) && (steerTurn == null || steerTurn == activeTurn)
    {
      var turn, frame := steerTurn, steerFrame.value;
      match reply {
        case SteerRejected => SteerRejected(turn);
        case SteerUnknown => SteerUnclear(turn);
        case SteerTurn(turnId) =>
          if turnId != Some(frame.expected) {
            SteerUnclear(turn);
          } else if |queue| == 0 || queue[0].serial != frame.dispatch.input.serial {
            SteerUnclear(turn);
          } else {
            SteerLanded(turn, frame.dispatch);
          }
      }
    }

    method EndSteer(turn: ActiveTurn)
      requires Valid() && turn == steerTurn
      modifies this`steerTurn, this`steerFrame, turn
      ensures Valid() && View() == SteerOver(old(View())) && steerTurn == null
      ensures turn.settlement == old(turn.settlement)
    {
      turn.group := turn.group.(steerInFlight := false);
      steerTurn, steerFrame := null, None;
    }

    /** Any outcome that leaves the follow-up's disposition unknown. */
    method SteerUnclear(turn: ActiveTurn)
      requires Valid() && turn == steerTurn
      modifies this`steerTurn, this`steerFrame, this`fenced, turn
      ensures Valid() && View() == FenceSteer(old(View())) && steerTurn == null
    {
      EndSteer(turn);
      FenceUnknown(turn);
      if !turn.settlement.completed {
        turn.Complete();
      }
    }

    method SteerRejected(turn: ActiveTurn)
      requires Valid() && turn == steerTurn
      modifies this, turn
      ensures Valid() && View() == OnSteerReply(old(View()), SteerReply.SteerRejected)
      ensures activeTurn == old(activeTurn) && steerTurn == null
    {
      EndSteer(turn);
      turn.group := turn.group.(closed := true);
      if turn == activeTurn && turn.settlement.completionSeen && turn.settlement.terminal.Some? {
        SettleByIdentity(turn);
      }
    }

    method SteerLanded(turn: ActiveTurn, dispatch: Dispatch)
      requires Valid() && turn == steerTurn && queue != [] && View().steer.value.dispatch == dispatch
      modifies this, activeTurn, turn
      ensures Valid() && activeTurn == old(activeTurn) && (steerTurn == null || steerTurn == activeTurn)
      ensures var s := old(View()); var s1 := SteerAccepted(s);
        View() == if SteerIsLive(s) && CanResume(s1) then ResumeBuffered(s1) else TryAdmit(s1)
    {
      JoinGroup(turn, dispatch);
      var resumed := ResumeBufferedGroupCompletion(turn);
      if !resumed {
        TryAdmitSteer();
      }
    }

    /** The accepted head leaves the queue for the group that steered it. */
    method JoinGroup(turn: ActiveTurn, dispatch: Dispatch)
      requires Valid() && turn == steerTurn && queue != [] && View().steer.value.dispatch == dispatch
      modifies this`queue, this`steerTurn, this`steerFrame, this`trace, turn
      ensures Valid() && steerTurn == null && View() == SteerAccepted(old(View()))
    {
      queue := queue[1..];
      turn.group := turn.group.(members := turn.group.members + [dispatch], steerInFlight := false);
      steerTurn, steerFrame := null, None;
      trace := trace.(steered := trace.steered + [dispatch.input]);
    }

    // -------------------------------------------------------------------------
    // Bounded history
    // -------------------------------------------------------------------------

    method HistoryScanned(history: seq<NativeTurn>, now: int)
      requires Valid() && activeTurn != null
      modifies this`nativeActive, this`trace, activeTurn
      ensures Valid() && View() == OnHistory(old(View()), history, now)
    {
      var turn := activeTurn;
      match turn.settlement.scan {
        case NoScan =>
        case SingleScan(keepPending) => SingleScanned(turn, history, keepPending, now);
        case GroupScan => GroupScanned(turn, history);
      }
    }

    method SingleScanned(turn: ActiveTurn, history: seq<NativeTurn>, keepPending: bool, now: int)
      requires Valid() && turn == activeTurn
      modifies this`nativeActive, this`trace, turn
      ensures Valid() && View() == OnSingleScan(old(View()), history, keepPending, now)
    {
      var repeats, matches, ownTerminal := CollectMatches(history, turn.clientId, turn.identity.nativeId);
      if repeats {
        ReportIdentityConflict(turn, ClientIdRepeated);
        return;
      }
      if turn.settlement.completed {
        return;
      }
      if |matches| == 1 {
        var indexes := ExactIndexesFor(matches[0], turn.clientId);
        CompleteActiveTurnFromNative(turn, matches[0], Some(indexes[0]));
      } else if |matches| > 1 {
        ReportIdentityConflict(turn, ManyMatches);
      } else if !keepPending {
        ReportIdentityConflict(turn, NoMatch);
      } else if ownTerminal {
        ReportIdentityConflict(turn, OwnTurnTerminated);
      } else if turn.settlement.deadline.None? || now >= turn.settlement.deadline.value {
        ReportIdentityConflict(turn, DeadlineReached);
      }
    }

    /** One pass over the scanned history. */
    method CollectMatches(history: seq<NativeTurn>, clientId: Option<Id>, nativeId: Option<Id>)
      returns (repeats: bool, matches: seq<NativeTurn>, ownTerminal: bool)
      ensures repeats == Repeats(history, clientId)
      ensures !repeats ==> matches == SingleMatches(history, clientId) && ownTerminal == OwnTerminal(history, nativeId)
    {
      repeats, matches, ownTerminal := false, [], false;
      for k := 0 to |history|
        invariant !repeats && !Repeats(history[..k], clientId)
        invariant matches == SingleMatches(history[..k], clientId) && ownTerminal == OwnTerminal(history[..k], nativeId)
      {
        ScannedOneMore(history, k, clientId, nativeId);
        var candidate := history[k];
        if Terminal(candidate) {
          var indexes := ExactIndexesFor(candidate, clientId);
          if |indexes| > 1 {
            repeats := true;
            return;
          }
          if |indexes| == 1 {
            matches := matches + [candidate];
          }
          if nativeId.Some? && candidate.id == nativeId {
            ownTerminal := true;
          }
        }
      }
      assert history[..|history|] == history;
    }

    method GroupScanned(turn: ActiveTurn, history: seq<NativeTurn>)
      requires Valid() && turn == activeTurn
      modifies this`nativeActive, this`trace, turn
      ensures Valid() && View() == OnGroupScan(old(View()), history)
    {
      var ids := SentIds(turn.group.members);
      var matches := CollectGroupMatches(history, ids);
      if turn.settlement.completed {
        return;
      }
      if |matches| == 1 {
        var verdict := VerifyGroupSubsequence(ids, matches[0]);
        SettleOnHistory(turn, matches[0], verdict.index);
      } else {
        ReportIdentityConflict(turn, if |matches| == 0 then NoMatch else ManyMatches);
      }
    }

    method CollectGroupMatches(history: seq<NativeTurn>, ids: seq<Id>) returns (matches: seq<NativeTurn>)
      ensures matches == GroupMatches(history, ids)
    {
      matches := [];
      for k := 0 to |history|
        invariant matches == GroupMatches(history[..k], ids)
      {
        assert history[..k + 1][..k] == history[..k];
        if Terminal(history[k]) {
          var verdict := VerifyGroupSubsequence(ids, history[k]);
          if verdict.Last? {
            matches := matches + [history[k]];
          }
        }
      }
      assert history[..|history|] == history;
    }

    method SettleOnHistory(turn: ActiveTurn, matched: NativeTurn, lastIndex: nat)
      requires Valid() && turn == activeTurn
      modifies this`nativeActive, turn
      ensures Valid() && View() == SettleFromHistory(old(View()), matched, lastIndex)
    {
      turn.texts := Texts(Rebuild(matched, lastIndex), "");
      if matched.id.Some? {
        var priorCanonical := turn.identity.canonical;
        if priorCanonical.Some? && nativeActive == priorCanonical {
          nativeActive := None;
        }
        turn.identity := turn.identity.(nativeId := matched.id, canonical := matched.id);
        if nativeActive == matched.id {
          nativeActive := None;
        }
      }
      turn.settlement := turn.settlement.(terminal := Some(matched), completed := true);
      turn.phase := Closing;
    }

    method HistoryFailed()
      requires Valid() && activeTurn != null
      modifies this`nativeActive, this`trace, activeTurn
      ensures Valid() && View() == OnHistoryFailed(old(View()))
    {
      var turn := activeTurn;
      if turn.settlement.scan != NoScan && !turn.settlement.completed {
        ReportIdentityConflict(turn, LookupFailed);
      }
    }

    // -------------------------------------------------------------------------
    // Finals
    // -------------------------------------------------------------------------

    method FinalizeAcceptedGroup()
      requires Valid() && activeTurn != null
      modifies this`finals, this`activeTurn, this`point
      ensures Valid() && View() == OnFinalize(old(View())) && activeTurn == null
    {
      var turn := activeTurn;
      if turn.phase != Phase.Fenced {
        var members := turn.group.members;
        ghost var emitted := GroupFinals(turn.View());
        for index := 0 to |members|
          invariant View() == old(View()).(finals := old(finals) + emitted[..index])
        {
          var isReal := index == |members| - 1;
          finals := finals + [Final(members[index].input, if isReal then Real else Superseded,
                                    if isReal then SettledText(turn.View()) else Nothing)];
          assert emitted[..index + 1] == emitted[..index] + [emitted[index]];
        }
        assert emitted[..|members|] == emitted;
      }
      activeTurn := null;
      point := Returned;
    }

    // -------------------------------------------------------------------------
    // Refinement
    // -------------------------------------------------------------------------

    /** Every handler does what the transition function says, and a handler whose
        event cannot occur is not called. */
    method Handle(step: Step)
      requires Valid()
      modifies this, activeTurn, steerTurn
      ensures Valid() && View() == Next(old(View()), step)
      ensures activeTurn == null || activeTurn == old(activeTurn) || fresh(activeTurn)
      ensures steerTurn == null || steerTurn == old(steerTurn) || steerTurn == activeTurn
    {
      if step.Launch? || step.RootResponse? || step.RootError? || step.SteerReplied? {
        HandleRpc(step);
      } else if step.Finalize? {
        HandleFinalize();
      } else if step.AfterTurn? || step.IdleTimerFired? {
        HandleContinuation(step);
      } else {
        HandleEvent(step);
      }
    }

    method HandleRpc(step: Step)
      requires Valid() && (step.Launch? || step.RootResponse? || step.RootError? || step.SteerReplied?)
      modifies this, activeTurn, steerTurn
      ensures Valid() && View() == Next(old(View()), step)
      ensures activeTurn == null || activeTurn == old(activeTurn) || fresh(activeTurn)
      ensures steerTurn == null || steerTurn == old(steerTurn) || steerTurn == activeTurn
    {
      match step {
        case Launch => if point.Launching? { Launch(); }
        case RootResponse(id, now) => if point.AwaitRoot? && activeTurn != null { RootResponse(id, now); }
        case RootError(failure) => if point.AwaitRoot? && activeTurn != null { RootError(failure); }
        case SteerReplied(reply) => if steerFrame.Some? { SteerReplied(reply); }
      }
    }

    method HandleFinalize()
      requires Valid()
      modifies this
      ensures Valid() && View() == Next(old(View()), Finalize)
      ensures activeTurn == null || activeTurn == old(activeTurn)
      ensures steerTurn == old(steerTurn)
    {
      if point.AwaitDone? && activeTurn != null && activeTurn.settlement.completed {
        FinalizeAcceptedGroup();
      }
    }

    method HandleContinuation(step: Step)
      requires Valid() && (step.AfterTurn? || step.IdleTimerFired?)
      modifies this
      ensures Valid() && View() == Next(old(View()), step) && SameTurns()
    {
      match step {
        case AfterTurn => if point.Returned? { AfterTurn(); }
        case IdleTimerFired => if idleTimer { IdleTimerFired(); }
      }
    }

    method HandleEvent(step: Step)
      requires Valid()
      requires !step.Launch? && !step.RootResponse? && !step.RootError? && !step.SteerReplied? && !step.Finalize?
      requires !step.AfterTurn? && !step.IdleTimerFired?
      modifies this, activeTurn
      ensures Valid() && View() == Next(old(View()), step)
      ensures activeTurn == old(activeTurn) && (steerTurn == old(steerTurn) || steerTurn == activeTurn)
    {
      match step {
        case Enqueue(line) => EnqueueLine(line);
        case TurnStarted(id, native) => TurnStarted(id, native, false);
        case TurnCompleted(id, native) => TurnCompleted(id, native);
        case Progress(id, effect, now) => Progress(id, effect, now);
        case HistoryScanned(history, now) => if activeTurn != null { HistoryScanned(history, now); }
        case HistoryFailed => if activeTurn != null { HistoryFailed(); }
        case Reauthenticated => SettleRunnerState();
      }
    }
  }

  /** A whole run of the class is a run of the state machine. */
  method Drive(config: Config, steps: seq<Step>) returns (runner: Runner)
    ensures fresh(runner) && runner.Valid() && runner.View() == Run(Init(config), steps)
  {
    runner := new Runner(config);
    for k := 0 to |steps|
      invariant fresh(runner) && runner.Valid() && runner.View() == Run(Init(config), steps[..k])
      invariant runner.activeTurn == null || fresh(runner.activeTurn)
      invariant runner.steerTurn == null || fresh(runner.steerTurn)
    {
      runner.Handle(steps[k]);
      assert steps[..k + 1][..k] == steps[..k];
    }
    assert steps[..|steps|] == steps;
  }
}
