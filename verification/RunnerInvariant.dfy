/**
 What every reachable runner state keeps, whatever arrives, and how the inputs
 flow through it. Each `...Kept` lemma says that one handler keeps the shape and
 lets no input overtake, vanish or double.
 */
module RunnerInvariant {
  import opened Options
  import opened GroupIdentity
  import opened RunnerSteps

  function InputsOf(finals: seq<Final>): (r: seq<Input>)
    ensures |r| == |finals|
  {
    seq(|finals|, k requires 0 <= k < |finals| => finals[k].input)
  }

  function Members(group: seq<Dispatch>): (r: seq<Input>)
    ensures |r| == |group|
  {
    seq(|group|, k requires 0 <= k < |group| => group[k].input)
  }

  /** Inputs that left the queue, have no final yet and can still get one. */
  function Held(s: State): seq<Input> {
    match s.point
    case Launching(next) => [next]
    case AwaitRoot(_) => HeldByTurn(s)
    case AwaitDone => HeldByTurn(s)
    case _ => []
  }

  function HeldByTurn(s: State): seq<Input> {
    if s.turn.Some? && s.turn.value.phase != Fenced then Members(s.turn.value.group.members) else []
  }

  /** The inputs in the order they were or can still be finalized. */
  function Waiting(s: State): seq<Input> {
    InputsOf(s.finals) + Held(s) + (if s.fenced then [] else s.queue)
  }

  // ---------------------------------------------------------------------------
  // The shape of a reachable state
  // ---------------------------------------------------------------------------

  ghost predicate Shaped(s: State) {
    && (s.point.AwaitRoot? || s.point.AwaitDone? ==> s.turn.Some?)
    && (s.point.Launching? ==> s.turn.None?)
    && (!s.fenced && s.turn.Some? ==> s.point.AwaitRoot? || s.point.AwaitDone?)
    && (s.turn.Some? ==> TurnShaped(s, s.turn.value))
    && (s.steer.Some? ==> s.steer.value.epoch <= s.epoch)
    && (SteerIsLive(s) ==> LiveSteer(s, s.turn.value, s.steer.value))
  }

  /** What relates the active turn to the rest of the state. */
  ghost predicate TurnShaped(s: State, t: Turn) {
    && Settling(t)
    && t.epoch <= s.epoch
    && (s.point.AwaitRoot? ==>
          && !t.request.accepted && t.group.members[0].input == s.point.call.input
          && (t.identity.proof.Some? ==> ExactlyProven(t)))
    && (s.point.AwaitDone? ==> t.request.accepted)
    && (t.phase == Fenced ==> s.fenced)
    && (!s.fenced && t.group.steerInFlight ==> SteerIsLive(s))
  }

  /** What holds inside a turn. */
  ghost predicate Settling(t: Turn) {
    && t.group.members != []
    && (|t.group.members| > 1 || t.settlement.completionSeen ==> SteerableRoot(t))
    && (t.phase == Fenced || t.settlement.conflictReported ==> t.settlement.completed)
    && (t.request.accepted ==> !t.request.pending)
    && (t.settlement.scan.SingleScan? || t.settlement.deadline.Some? ==> t.request.accepted)
    && (t.settlement.deadline.Some? ==> t.identity.nativeId.Some?)
    && ExactMatches(t.buffers.completions, t.clientId) == []
    && (t.settlement.scan.GroupScan? ==> t.group.closed && !t.group.steerInFlight)
    && (t.settlement.completionSeen ==> t.group.closed && t.settlement.terminal.Some?)
    && (InGroupMode(t) || t.settlement.completionSeen ==> t.identity.canonical.Some?)
    && (!t.settlement.completed ==> (t.identity.canonical.Some? <==> t.identity.proof.Some?))
  }

  /** The outstanding steer is for the active turn: it carries the queue head. */
  ghost predicate LiveSteer(s: State, t: Turn, call: SteerCall) {
    && t.group.steerInFlight && SteerableRoot(t)
    && (if s.fenced then t.phase == Fenced else s.queue != [] && s.queue[0] == call.dispatch.input)
  }

  lemma InitShaped(config: Config)
    ensures Shaped(Init(config)) && Waiting(Init(config)) == Init(config).received
  {
    assert InputsOf([]) + [] + [] == [];
  }

  // ---------------------------------------------------------------------------
  // Frames
  // ---------------------------------------------------------------------------

  /** A turn is the same turn as before or one of a later epoch. */
  predicate Later(s: State, r: State) {
    && s.epoch <= r.epoch
    && (r.turn.Some? ==>
          || s.epoch < r.turn.value.epoch
          || (s.turn.Some? && r.turn.value.epoch == s.turn.value.epoch))
  }

  /** Nothing is received, and what waits stays as it is; a fence, once raised,
      may cut off its tail. */
  ghost predicate Flows(s: State, r: State) {
    && r.received == s.received && (s.fenced ==> r.fenced) && Later(s, r)
    && (if r.fenced then Waiting(r) <= Waiting(s) else Waiting(r) == Waiting(s))
  }

  ghost predicate Kept(s: State, r: State) {
    Shaped(r) && Flows(s, r)
  }

  lemma FlowsOn(s: State, m: State, r: State)
    requires Flows(s, m) && Flows(m, r)
    ensures Flows(s, r)
  {
  }

  /** Everything outside the active turn that ordering depends on. */
  predicate SameOutside(s: State, r: State) {
    && r.queue == s.queue && r.point == s.point && r.epoch == s.epoch && r.steer == s.steer
    && r.fenced == s.fenced && r.received == s.received && r.finals == s.finals
  }

  predicate TendsTurn(t: Turn, u: Turn) {
    && u.epoch == t.epoch
    && u.group.members == t.group.members && u.group.steerInFlight == t.group.steerInFlight
    && u.identity.canonical == t.identity.canonical && u.identity.proof == t.identity.proof
    && u.request.accepted == t.request.accepted
    && (u.phase == Fenced <==> t.phase == Fenced)
    && (t.settlement.completed ==> u.settlement.completed)
  }

  /** The handler only tends to the turn: it takes notes, hands it to a lookup or
      settles it. */
  ghost predicate Tends(s: State, r: State) {
    && SameOutside(s, r) && (s.turn.Some? <==> r.turn.Some?)
    && (s.turn.Some? ==> TendsTurn(s.turn.value, r.turn.value) && (Settling(s.turn.value) ==> Settling(r.turn.value)))
  }

  lemma TendsKept(s: State, r: State)
    requires Shaped(s) && Tends(s, r)
    ensures Kept(s, r)
  {
  }

  lemma CompleteTends(s: State, native: NativeTurn, at: Option<nat>)
    requires s.turn.Some?
    ensures Tends(s, CompleteFromNative(s, native, at))
  {
  }

  lemma ConflictedTends(t: Turn, reason: Reason)
    ensures TendsTurn(t, Conflicted(t, reason))
    ensures Settling(t) ==> Settling(Conflicted(t, reason))
  {
  }

  lemma ConflictTends(s: State, reason: Reason)
    requires s.turn.Some?
    ensures Tends(s, ReportConflict(s, reason))
  {
    ConflictedTends(s.turn.value, reason);
  }

  lemma SteeredTends(s: State, native: NativeTurn)
    requires s.turn.Some? && (s.turn.value.phase == Fenced ==> s.turn.value.settlement.completed)
    ensures Tends(s, SettleSteered(s, native))
  {
    var verdict := VerifyGroup(SentIds(s.turn.value.group.members), native);
    if verdict.Mismatch? {
      ConflictTends(s, verdict.reason);
    }
  }

  lemma GroupScanTends(s: State)
    requires s.turn.Some? && s.turn.value.group.closed && !s.turn.value.group.steerInFlight
    ensures Tends(s, StartGroupScan(s))
  {
  }

  lemma SingleScanTends(s: State, keep: bool, now: int)
    requires s.turn.Some? && s.turn.value.request.accepted
    ensures Tends(s, StartSingleScan(s, keep, now))
  {
    var t, r := s.turn.value, StartSingleScan(s, keep, now);
    ConflictTends(s, LegacyInput);
    if t.settlement.scan == NoScan && !t.settlement.completed && t.clientId.Some? {
      WaitingTends(t, keep, r.turn.value.settlement.deadline);
    }
  }

  lemma WaitingTends(t: Turn, keep: bool, deadline: Option<int>)
    requires t.request.accepted && (deadline.Some? ==> t.identity.nativeId.Some? || deadline == t.settlement.deadline)
    ensures var u := t.(settlement := t.settlement.(scan := SingleScan(keep), deadline := deadline));
      TendsTurn(t, u) && (Settling(t) ==> Settling(u))
  {
  }

  lemma BufferedTends(s: State)
    requires s.turn.Some? && (s.turn.value.phase == Fenced ==> s.turn.value.settlement.completed)
    requires s.turn.value.settlement.terminal.Some? && s.turn.value.group.closed && !s.turn.value.group.steerInFlight
    ensures Tends(s, SettleBuffered(s))
  {
    SteeredTends(s, s.turn.value.settlement.terminal.value);
    GroupScanTends(s);
  }

  // ---------------------------------------------------------------------------
  // Shared effects
  // ---------------------------------------------------------------------------

  lemma FenceKept(s: State)
    requires Shaped(s) && s.turn.Some?
    ensures Kept(s, FenceAndSettle(s)) && FenceAndSettle(s).fenced
    ensures FenceAndSettle(s).turn.value.group == s.turn.value.group
    ensures FenceAndSettle(s).point == s.point
  {
  }

  lemma ReturnedKept(s: State)
    requires Shaped(s) && s.fenced && s.turn.Some?
    ensures Kept(s, s.(point := Returned))
  {
  }

  lemma AdmitKept(s: State)
    requires Shaped(s)
    ensures Kept(s, TryAdmit(s))
  {
  }

  lemma DrainKept(s: State)
    requires Shaped(s) && (s.point.Idle? || s.point.Returned?)
    ensures Kept(s, DrainLoop(s))
  {
    if DrainLoop(s).point.Launching? {
      DequeueFlows(s, s.(queue := s.queue[1..], point := Launching(s.queue[0])));
    }
  }

  lemma DequeueFlows(s: State, r: State)
    requires !s.fenced && (s.point.Idle? || s.point.Returned?) && s.queue != []
    requires r == s.(queue := s.queue[1..], point := Launching(s.queue[0]))
    ensures Waiting(r) == Waiting(s)
  {
    assert s.queue == [s.queue[0]] + s.queue[1..];
    assert Waiting(r) == InputsOf(s.finals) + ([s.queue[0]] + s.queue[1..]);
    assert Waiting(s) == InputsOf(s.finals) + s.queue;
  }

  lemma DrainedKept(s: State)
    requires Shaped(s) && s.point.Returned?
    ensures Kept(s, Drained(s))
  {
    DrainKept(if s.queue == [] || Parked(s) then SettleRunnerState(s) else s);
  }

  // ---------------------------------------------------------------------------
  // Input
  // ---------------------------------------------------------------------------

  lemma PushedShaped(s: State, line: Line)
    requires Shaped(s)
    ensures Shaped(Pushed(s, line))
    ensures Waiting(Pushed(s, line)) == Waiting(s) + (if s.fenced then [] else [Decode(s, line)])
  {
    var r := Pushed(s, line);
    if !s.fenced {
      assert Waiting(r) == InputsOf(s.finals) + Held(s) + (s.queue + [Decode(s, line)]);
    }
  }

  lemma EnqueueKept(s: State, line: Line)
    requires Shaped(s)
    ensures Kept(Pushed(s, line), OnEnqueue(s, line))
  {
    var pushed := Pushed(s, line);
    PushedShaped(s, line);
    var s1 := if line.Framed? then TryAdmit(pushed) else pushed;
    AdmitKept(pushed);
    if s1.point.Idle? {
      DrainKept(s1);
      FlowsOn(pushed, s1, Drain(s1));
    }
  }

  lemma LaunchKept(s: State)
    requires Shaped(s) && s.point.Launching?
    ensures Kept(s, OnLaunch(s))
  {
    var t := OnLaunch(s).turn.value;
    assert Members(t.group.members) == [s.point.next];
  }

  // ---------------------------------------------------------------------------
  // Notifications
  // ---------------------------------------------------------------------------

  lemma ProveKept(s: State, id: Id, proof: Proof)
    requires Shaped(s) && s.turn.Some? && (proof == ExactStarted || proof == ExactCompleted)
    ensures Kept(s, ProveExact(s, id, proof).0)
    ensures ProveExact(s, id, proof).0.turn.Some?
    ensures ProveExact(s, id, proof).0.point == s.point
    ensures ProveExact(s, id, proof).1 ==> ProveExact(s, id, proof).0.turn.value.identity.canonical == Some(id)
    ensures ProveExact(s, id, proof).0.turn.value.group == s.turn.value.group
  {
    ProofFrame(s, id, proof);
    if s.turn.value.identity.canonical.Some? {
      FenceKept(s);
    } else {
      FirstProofKept(s, id, proof);
    }
  }

  lemma ProofFrame(s: State, id: Id, proof: Proof)
    requires s.turn.Some?
    ensures var (s1, proceed) := ProveExact(s, id, proof);
      && s1.turn.Some? && s1.point == s.point && s1.turn.value.group == s.turn.value.group
      && (proceed ==> s1.turn.value.identity.canonical == Some(id))
  {
  }

  lemma FirstProofKept(s: State, id: Id, proof: Proof)
    requires Shaped(s) && s.turn.Some? && (proof == ExactStarted || proof == ExactCompleted)
    ensures Kept(s, WithTurn(s, s.turn.value.(identity := s.turn.value.identity.(canonical := Some(id), proof := Some(proof)))))
  {
    var t := s.turn.value;
    var u := t.(identity := t.identity.(canonical := Some(id), proof := Some(proof)));
    FirstProofSettling(t, id, proof);
    assert TurnShaped(WithTurn(s, u), u);
  }

  lemma FirstProofSettling(t: Turn, id: Id, proof: Proof)
    requires Settling(t)
    ensures Settling(t.(identity := t.identity.(canonical := Some(id), proof := Some(proof))))
  {
  }

  lemma SeenKept(s: State)
    requires Shaped(s) && s.turn.Some?
    ensures Kept(s, WithTurn(s, s.turn.value.(request := s.turn.value.request.(serverStarted := true))))
  {
    TendsKept(s, WithTurn(s, s.turn.value.(request := s.turn.value.request.(serverStarted := true))));
  }

  lemma BufferedKept(s: State, buffers: Buffers)
    requires Shaped(s) && s.turn.Some?
    requires buffers.completions == s.turn.value.buffers.completions || buffers.completions == []
    ensures Kept(s, WithTurn(s, s.turn.value.(buffers := buffers)))
  {
    TendsKept(s, WithTurn(s, s.turn.value.(buffers := buffers)));
  }

  lemma UntrackedKept(s: State)
    requires Shaped(s)
    ensures Kept(s, UntrackedStart(s))
  {
    TendsKept(s, UntrackedStart(s));
  }

  lemma ActiveKept(s: State, active: Option<Id>)
    requires Shaped(s)
    ensures Kept(s, s.(nativeActive := active))
  {
    TendsKept(s, s.(nativeActive := active));
  }

  lemma NotedTends(s: State, id: Id, native: NativeTurn)
    requires s.turn.Some? && s.turn.value.identity.nativeId != Some(id)
    ensures Tends(s, TrackStarted(s, id, native))
  {
    var t, r := s.turn.value, TrackStarted(s, id, native);
    NotesTend(t, t.buffers.notes + [StartedNote(id, native)]);
    assert SameOutside(s, r);
    assert r.turn == s.turn || r.turn == Some(t.(buffers := t.buffers.(notes := t.buffers.notes + [StartedNote(id, native)])));
  }

  lemma NotesTend(t: Turn, notes: seq<Notification>)
    ensures var u := t.(buffers := t.buffers.(notes := notes)); TendsTurn(t, u) && (Settling(t) ==> Settling(u))
  {
  }

  lemma TrackKept(s: State, id: Id, native: NativeTurn)
    requires Shaped(s) && s.turn.Some?
    ensures Kept(s, TrackStarted(s, id, native))
    ensures TrackStarted(s, id, native).point == s.point
  {
    var t := s.turn.value;
    if t.identity.nativeId == Some(id) {
      SeenKept(s);
      var seen := WithTurn(s, t.(request := t.request.(serverStarted := true)));
      AdmitKept(seen);
      FlowsOn(s, seen, TryAdmit(seen));
    } else {
      NotedTends(s, id, native);
      TendsKept(s, TrackStarted(s, id, native));
    }
  }

  lemma TrackedKept(s: State, id: Id, native: NativeTurn)
    requires Shaped(s) && s.turn.Some?
    ensures Kept(s, Tracked(s, id, native))
    ensures Tracked(s, id, native).point == s.point
  {
    if |Exact(native, s.turn.value.clientId)| != 1 {
      TrackKept(s, id, native);
    } else {
      ProveKept(s, id, ExactStarted);
      var (s1, proceed) := ProveExact(s, id, ExactStarted);
      if proceed {
        var s2 := WithTurn(s1, OpenStarted(s1.turn.value, id));
        TendsKept(s1, s2);
        TrackKept(s2, id, native);
        FlowsOn(s, s1, s2);
        FlowsOn(s, s2, Tracked(s, id, native));
      }
    }
  }

  lemma StartedKept(s: State, id: Option<Id>, native: NativeTurn, replayed: bool)
    requires Shaped(s)
    ensures Kept(s, OnStarted(s, id, native, replayed))
    ensures OnStarted(s, id, native, replayed).point == s.point
  {
    var s1 := if id.Some? && (!replayed || s.nativeActive.None? || s.nativeActive == id) then s.(nativeActive := id) else s;
    var r := OnStarted(s, id, native, replayed);
    ActiveKept(s, id);
    assert Kept(s, s1);
    if s1.turn.None? || id.None? {
      UntrackedKept(s1);
    } else {
      TrackedKept(s1, id.value, native);
    }
    FlowsOn(s, s1, r);
  }

  lemma ProgressTends(s: State, id: Option<Id>, effect: ProgressEffect, now: int)
    ensures Tends(s, OnProgress(s, id, effect, now))
  {
    var r := OnProgress(s, id, effect, now);
    assert SameOutside(s, r);
    if s.turn.Some? {
      var t := s.turn.value;
      AdvancedTends(t, effect, now + s.config.keepPendingWindow);
      assert r.turn == s.turn || r.turn == Some(Advanced(t, effect, now + s.config.keepPendingWindow))
          || r.turn == Some(t.(buffers := r.turn.value.buffers));
    }
  }

  lemma AdvancedTends(t: Turn, effect: ProgressEffect, deadline: int)
    ensures TendsTurn(t, Advanced(t, effect, deadline))
    ensures Settling(t) ==> Settling(Advanced(t, effect, deadline))
  {
  }

  lemma ProgressKept(s: State, id: Option<Id>, effect: ProgressEffect, now: int)
    requires Shaped(s)
    ensures Kept(s, OnProgress(s, id, effect, now))
    ensures OnProgress(s, id, effect, now).point == s.point
  {
    ProgressTends(s, id, effect, now);
    TendsKept(s, OnProgress(s, id, effect, now));
  }

  lemma BufferTends(s: State, id: Option<Id>, native: NativeTurn)
    requires s.turn.Some? && InGroupMode(s.turn.value)
    ensures Tends(s, WithTurn(s, BufferCompletion(s.turn.value, id, native)))
  {
  }

  lemma GroupCompletedKept(s: State, id: Option<Id>, native: NativeTurn)
    requires Shaped(s) && s.turn.Some? && InGroupMode(s.turn.value)
    ensures Kept(s, GroupCompleted(s, id, native))
  {
    var s1 := WithTurn(s, BufferCompletion(s.turn.value, id, native));
    BufferTends(s, id, native);
    TendsKept(s, s1);
    if !s1.turn.value.group.steerInFlight {
      SteeredTends(s1, native);
      GroupScanTends(s1);
      TendsKept(s1, SettleSteered(s1, native));
      TendsKept(s1, StartGroupScan(s1));
    }
  }

  lemma SingleCompletedKept(s: State, id: Option<Id>, native: NativeTurn)
    requires Shaped(s) && s.turn.Some?
    ensures Kept(s, SingleCompleted(s, id, native))
  {
    var r := SingleCompleted(s, id, native);
    if Upgrades(s.turn.value, id, native) {
      ProveKept(s, id.value, ExactCompleted);
      var (s1, proceed) := ProveExact(s, id.value, ExactCompleted);
      if proceed {
        TendsKept(s1, r);
      }
    } else {
      SingleCompletedTends(s, id, native);
      TendsKept(s, r);
    }
  }

  lemma SingleCompletedTends(s: State, id: Option<Id>, native: NativeTurn)
    requires s.turn.Some? && !Upgrades(s.turn.value, id, native)
    ensures Tends(s, SingleCompleted(s, id, native))
  {
    var t := s.turn.value;
    var exact := Exact(native, t.clientId);
    if |exact| == 1 {
      CompleteTends(s, native, Some(exact[0]));
    } else if t.request.accepted {
      CompleteTends(s, native, None);
      SingleScanTends(s, false, 0);
    } else {
      HeldBackTends(s, native);
    }
  }

  lemma HeldBackTends(s: State, native: NativeTurn)
    requires s.turn.Some? && |Exact(native, s.turn.value.clientId)| != 1
    ensures var t := s.turn.value;
      Tends(s, WithTurn(s, t.(buffers := t.buffers.(completions := t.buffers.completions + [native]))))
  {
    var completions := s.turn.value.buffers.completions;
    assert (completions + [native])[..|completions|] == completions;
  }

  lemma CompletedKept(s: State, id: Option<Id>, native: NativeTurn)
    requires Shaped(s)
    ensures Kept(s, OnCompleted(s, id, native))
  {
    var s1 := s.(nativeActive := Released(s, id));
    TendsKept(s, s1);
    if s1.turn.None? {
      var s2 := SettleRunnerState(s1);
      TendsKept(s, s2);
      if s2.point.Idle? {
        DrainKept(s2);
      }
    } else if InGroupMode(s1.turn.value) {
      GroupCompletedKept(s1, id, native);
    } else {
      SingleCompletedKept(s1, id, native);
    }
  }

  // ---------------------------------------------------------------------------
  // The root RPC
  // ---------------------------------------------------------------------------

  lemma BoundKept(s: State, id: Option<Id>)
    requires Shaped(s) && s.point.AwaitRoot? && !ResponseContradicts(s.turn.value, id)
    ensures Kept(s, Bound(s, id))
  {
  }

  lemma ResumeTends(s: State)
    requires s.turn.Some? && Settling(s.turn.value)
    ensures Tends(s, ResumeBuffered(s))
  {
    if CanResume(s) {
      BufferedTends(s);
    }
  }

  lemma SettleAfterResponseKept(s: State)
    requires Shaped(s) && s.turn.Some?
    ensures Kept(s, SettleAfterResponse(s))
    ensures SettleAfterResponse(s).point == s.point
  {
    var s1 := ResumeBuffered(s);
    ResumeTends(s);
    TendsKept(s, s1);
    if SettlesBufferedCanonical(s.turn.value) {
      SteeredTends(s1, s1.turn.value.settlement.terminal.value);
      TendsKept(s1, SettleAfterResponse(s));
    }
  }

  lemma {:induction false} ReplayAllKept(s: State, notes: seq<Notification>, now: int)
    requires Shaped(s) && s.turn.Some?
    ensures Kept(s, ReplayAll(s, notes, now))
    ensures ReplayAll(s, notes, now).point == s.point
    decreases |notes|
  {
    if notes != [] {
      var s1 := ReplayOne(s, notes[0], now);
      match notes[0] {
        case StartedNote(id, native) => StartedKept(s, Some(id), native, true);
        case ProgressNote(id, effect) => ProgressKept(s, Some(id), effect, now);
      }
      ReplayAllKept(s1, notes[1..], now);
      FlowsOn(s, s1, ReplayAll(s1, notes[1..], now));
    }
  }

  lemma NotesKept(s: State, now: int)
    requires Shaped(s) && s.turn.Some?
    ensures var s2 := WithTurn(s, s.turn.value.(buffers := s.turn.value.buffers.(notes := [])));
      var r := ReplayAll(s2, s.turn.value.buffers.notes, now);
      Kept(s, r) && r.point == s.point
  {
    var s2 := WithTurn(s, s.turn.value.(buffers := s.turn.value.buffers.(notes := [])));
    BufferedKept(s, s.turn.value.buffers.(notes := []));
    ReplayAllKept(s2, s.turn.value.buffers.notes, now);
    FlowsOn(s, s2, ReplayAll(s2, s.turn.value.buffers.notes, now));
  }

  lemma SettledKept(s: State, id: Option<Id>, now: int)
    requires Shaped(s) && s.point.AwaitRoot? && !ResponseContradicts(s.turn.value, id)
    ensures Kept(s, Settled(s, id, now))
    ensures Settled(s, id, now).point == AwaitDone
  {
    BoundKept(s, id);
    var s0 := Bound(s, id);
    SettleAfterResponseKept(s0);
    var s1 := SettleAfterResponse(s0);
    NotesKept(s1, now);
    var s3 := ReplayAll(WithTurn(s1, s1.turn.value.(buffers := s1.turn.value.buffers.(notes := []))), s1.turn.value.buffers.notes, now);
    BufferedKept(s3, s3.turn.value.buffers.(completions := []));
    FlowsOn(s, s0, s1);
    FlowsOn(s, s1, s3);
    FlowsOn(s, s3, Settled(s, id, now));
  }

  lemma SettlePendingTends(s: State, pending: seq<NativeTurn>, now: int)
    requires s.turn.Some? && s.turn.value.request.accepted
    ensures Tends(s, SettlePending(s, pending, now))
  {
    var t := s.turn.value;
    var exact := ExactMatches(pending, t.clientId);
    var mine := NativeMatches(pending, t.identity.nativeId);
    if |exact| == 1 {
      CompleteTends(s, exact[0], Some(Exact(exact[0], t.clientId)[0]));
    } else if |exact| > 1 || |mine| > 1 {
      ConflictTends(s, ManyMatches);
    } else if t.request.kind == StartRequest && |mine| == 1 {
      CompleteTends(s, mine[0], None);
    } else {
      SingleScanTends(s, false, now);
      SingleScanTends(s, true, now);
    }
  }

  lemma ContradictedKept(s: State)
    requires Shaped(s) && s.point.AwaitRoot?
    ensures var t := s.turn.value;
      Kept(s, FenceAndSettle(WithTurn(s, t.(request := t.request.(pending := false)))).(point := Returned))
  {
    var t := s.turn.value;
    var s0 := WithTurn(s, t.(request := t.request.(pending := false)));
    TendsKept(s, s0);
    FenceKept(s0);
    ReturnedKept(FenceAndSettle(s0));
    FlowsOn(s0, FenceAndSettle(s0), FenceAndSettle(s0).(point := Returned));
  }

  lemma RootResponseKept(s: State, id: Option<Id>, now: int)
    requires Shaped(s) && s.point.AwaitRoot?
    ensures Kept(s, OnRootResponse(s, id, now))
  {
    var t := s.turn.value;
    var responseId := if id.Some? then id else t.identity.nativeId;
    if ResponseContradicts(t, responseId) {
      ContradictedKept(s);
    } else {
      SettledKept(s, responseId, now);
      var s1 := Settled(s, responseId, now);
      SettlePendingTends(s1, t.buffers.completions, now);
      var s2 := SettlePending(s1, t.buffers.completions, now);
      TendsKept(s1, s2);
      AdmitKept(s2);
      FlowsOn(s, s1, s2);
      FlowsOn(s, s2, TryAdmit(s2));
    }
  }

  /** A root rejected for good gets its failure final. */
  lemma RejectedKept(s: State)
    requires Shaped(s) && s.point.AwaitRoot? && !s.fenced && |s.turn.value.group.members| == 1
    ensures var r := s.(turn := None, point := Returned, finals := s.finals + [Final(s.point.call.input, RunnerFailure, RunnerError)]);
      Kept(s, r)
  {
    var r := s.(turn := None, point := Returned, finals := s.finals + [Final(s.point.call.input, RunnerFailure, RunnerError)]);
    assert Members(s.turn.value.group.members) == [s.point.call.input];
    assert InputsOf(r.finals) == InputsOf(s.finals) + [s.point.call.input];
  }

  lemma RootErrorKept(s: State, failure: RpcFailure)
    requires Shaped(s) && s.point.AwaitRoot?
    ensures Kept(s, OnRootError(s, failure))
  {
    var t := s.turn.value;
    var r := OnRootError(s, failure);
    if FallsBack(s, s.point.call, failure) {
      ResentKept(s, r);
    } else if RetriesLegacy(s, s.point.call, failure) {
      ResentKept(s, r);
    } else if PositiveEvidence(t) || !failure.serverError {
      FenceKept(s);
      ReturnedKept(FenceAndSettle(s));
      FlowsOn(s, FenceAndSettle(s), r);
    } else if !s.fenced {
      RejectedKept(s);
      var failed := s.(turn := None, point := Returned, finals := s.finals + [Final(s.point.call.input, RunnerFailure, RunnerError)]);
      DrainedKept(failed);
      FlowsOn(s, failed, r);
    }
  }

  lemma ResentKept(s: State, r: State)
    requires Shaped(s) && s.point.AwaitRoot? && r.point.AwaitRoot? && r.point.call.input == s.point.call.input
    requires SameOutside(s.(point := r.point), r) && r.turn.Some?
    requires r.turn == s.turn || r.turn.value == ResetForStart(s.turn.value)
    ensures Kept(s, r)
  {
  }

  // ---------------------------------------------------------------------------
  // The steer RPC
  // ---------------------------------------------------------------------------

  /** The reply to a steer whose turn is gone is taken as acceptance of the queue
      head into that dead group: the head leaves the queue and nobody holds it. */
  predicate LosesInput(s: State, step: Step) {
    && !s.fenced && step.SteerReplied? && step.reply.SteerTurn?
    && s.steer.Some? && !SteerIsLive(s) && SteerMatches(s, step.reply.turnId)
  }

  lemma SteerOverKept(s: State)
    requires Shaped(s) && s.steer.Some?
    ensures Kept(s, SteerOver(s))
  {
  }

  lemma FenceSteerKept(s: State)
    requires Shaped(s) && s.steer.Some?
    ensures Kept(s, FenceSteer(s))
  {
    SteerOverKept(s);
    if SteerIsLive(s) {
      FenceKept(SteerOver(s));
      FlowsOn(s, SteerOver(s), FenceSteer(s));
    }
  }

  lemma JoinFlows(s: State)
    requires Shaped(s) && SteerIsLive(s) && !s.fenced
    ensures Waiting(SteerAccepted(s)) == Waiting(s)
  {
    var t := s.turn.value;
    var dispatch := s.steer.value.dispatch;
    assert Members(t.group.members + [dispatch]) == Members(t.group.members) + [dispatch.input];
    assert s.queue == [dispatch.input] + s.queue[1..];
    assert Waiting(SteerAccepted(s)) == InputsOf(s.finals) + (Members(t.group.members) + [dispatch.input]) + s.queue[1..];
  }

  lemma SteerAcceptedKept(s: State)
    requires Shaped(s) && s.steer.Some? && s.queue != []
    ensures Shaped(SteerAccepted(s)) && Later(s, SteerAccepted(s))
    ensures SteerIsLive(s) || s.fenced ==> Flows(s, SteerAccepted(s))
  {
    if SteerIsLive(s) && !s.fenced {
      JoinFlows(s);
    }
  }

  lemma SteerRejectedKept(s: State)
    requires Shaped(s) && s.steer.Some?
    ensures Kept(s, OnSteerReply(s, SteerRejected))
  {
    SteerOverKept(s);
    if SteerIsLive(s) {
      var s1 := SteerOver(s);
      var s2 := WithTurn(s1, s1.turn.value.(group := s1.turn.value.group.(closed := true)));
      TendsKept(s1, s2);
      if s2.turn.value.settlement.completionSeen && s2.turn.value.settlement.terminal.Some? {
        BufferedTends(s2);
        TendsKept(s2, SettleBuffered(s2));
      }
    }
  }

  lemma SteerReplyKept(s: State, reply: SteerReply)
    requires Shaped(s) && s.steer.Some?
    ensures Shaped(OnSteerReply(s, reply)) && Later(s, OnSteerReply(s, reply))
    ensures !LosesInput(s, SteerReplied(reply)) ==> Flows(s, OnSteerReply(s, reply))
  {
    match reply
    case SteerUnknown => FenceSteerKept(s);
    case SteerRejected => SteerRejectedKept(s);
    case SteerTurn(turnId) =>
      if !SteerMatches(s, turnId) {
        FenceSteerKept(s);
      } else {
        SteerAcceptedKept(s);
        var s1 := SteerAccepted(s);
        if SteerIsLive(s) {
          ResumeTends(s1);
          TendsKept(s1, ResumeBuffered(s1));
        }
        AdmitKept(s1);
      }
  }

  // ---------------------------------------------------------------------------
  // History, finals, timers
  // ---------------------------------------------------------------------------

  lemma FromHistoryKept(s: State, matched: NativeTurn, lastIndex: nat)
    requires Shaped(s) && s.turn.Some? && !s.turn.value.settlement.completed
    ensures Kept(s, SettleFromHistory(s, matched, lastIndex))
  {
  }

  lemma HistoryKept(s: State, history: seq<NativeTurn>, now: int)
    requires Shaped(s) && s.turn.Some?
    ensures Kept(s, OnHistory(s, history, now))
  {
    var t := s.turn.value;
    match t.settlement.scan
    case NoScan =>
    case SingleScan(keep) =>
      SingleHistoryTends(s, history, keep, now);
      TendsKept(s, OnHistory(s, history, now));
    case GroupScan =>
      var ids := SentIds(t.group.members);
      var matches := GroupMatches(history, ids);
      if !t.settlement.completed {
        if |matches| == 1 {
          FromHistoryKept(s, matches[0], VerifyGroup(ids, matches[0]).index);
        } else {
          ConflictTends(s, if |matches| == 0 then NoMatch else ManyMatches);
          TendsKept(s, OnHistory(s, history, now));
        }
      }
  }

  lemma SingleHistoryTends(s: State, history: seq<NativeTurn>, keepPending: bool, now: int)
    requires s.turn.Some?
    ensures Tends(s, OnSingleScan(s, history, keepPending, now))
  {
    var matches := SingleMatches(history, s.turn.value.clientId);
    if |matches| == 1 {
      CompleteTends(s, matches[0], Some(Exact(matches[0], s.turn.value.clientId)[0]));
    }
    ConflictTends(s, ClientIdRepeated);
    ConflictTends(s, ManyMatches);
    ConflictTends(s, NoMatch);
    ConflictTends(s, OwnTurnTerminated);
    ConflictTends(s, DeadlineReached);
  }

  lemma HistoryFailedKept(s: State)
    requires Shaped(s) && s.turn.Some?
    ensures Kept(s, OnHistoryFailed(s))
  {
    ConflictTends(s, LookupFailed);
    TendsKept(s, OnHistoryFailed(s));
  }

  lemma FinalizeKept(s: State)
    requires Shaped(s) && s.point.AwaitDone?
    ensures Kept(s, OnFinalize(s))
  {
    var t := s.turn.value;
    assert InputsOf(s.finals + GroupFinals(t)) == InputsOf(s.finals) + Members(t.group.members);
    assert t.phase == Fenced ==> s.finals + [] == s.finals;
  }

  lemma TimerKept(s: State)
    requires Shaped(s)
    ensures Kept(s, OnIdleTimer(s))
  {
    TendsKept(s, OnIdleTimer(s));
  }

  lemma SettledStateKept(s: State)
    requires Shaped(s)
    ensures Kept(s, SettleRunnerState(s))
  {
    TendsKept(s, SettleRunnerState(s));
  }

  // ---------------------------------------------------------------------------
  // Runs
  // ---------------------------------------------------------------------------

  /** Every step keeps the shape, and every step but a lost input lets what waits
      flow on. */
  lemma {:induction false} NextKept(s: State, step: Step)
    requires Shaped(s)
    ensures Shaped(Next(s, step)) && Later(s, Next(s, step))
    ensures !LosesInput(s, step) ==> Flows(if step.Enqueue? then Pushed(s, step.line) else s, Next(s, step))
  {
    if Enabled(s, step) {
      match step
      case Enqueue(line) => EnqueueKept(s, line);
      case Launch => LaunchKept(s);
      case RootResponse(id, now) => RootResponseKept(s, id, now);
      case RootError(failure) => RootErrorKept(s, failure);
      case SteerReplied(reply) => SteerReplyKept(s, reply);
      case TurnStarted(id, native) => StartedKept(s, id, native, false);
      case TurnCompleted(id, native) => CompletedKept(s, id, native);
      case Progress(id, effect, now) => ProgressKept(s, id, effect, now);
      case HistoryScanned(history, now) => HistoryKept(s, history, now);
      case HistoryFailed => HistoryFailedKept(s);
      case Finalize => FinalizeKept(s);
      case AfterTurn => DrainedKept(s);
      case IdleTimerFired => TimerKept(s);
      case Reauthenticated => SettledStateKept(s);
    }
  }

  /** Whatever arrives, in whatever order. */
  lemma {:induction false} RunShaped(config: Config, steps: seq<Step>)
    ensures Shaped(Run(Init(config), steps))
  {
    if steps == [] {
      InitShaped(config);
    } else {
      RunShaped(config, steps[..|steps| - 1]);
      NextKept(Run(Init(config), steps[..|steps| - 1]), steps[|steps| - 1]);
    }
  }
}
