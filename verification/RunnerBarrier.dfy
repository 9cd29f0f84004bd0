/**
 The RPC barrier of the ordered-steer driver: a turn is settled, and finals are
 emitted, only while no RPC of its group is outstanding. Exactly which steps
 put a lookup and a steer on one turn, which settle it under the steer, and that
 exactly then a final overtakes an RPC.
 */
module RunnerBarrier {
  import opened Options
  import opened GroupIdentity
  import opened RunnerSteps
  import opened RunnerInvariant
  import opened RunnerTheorems

  /** A single-root lookup owns the turn. */
  predicate LookedUp(s: State) {
    s.turn.Some? && s.turn.value.settlement.scan.SingleScan?
  }

  predicate Steering(s: State) {
    s.turn.Some? && s.turn.value.group.steerInFlight
  }

  /** A single-root lookup owns a turn whose own steer is outstanding. */
  predicate Overlaps(s: State) {
    !s.fenced && LookedUp(s) && Steering(s)
  }

  /** The turn is settled although its own steer is outstanding. */
  predicate BarrierBroken(s: State) {
    !s.fenced && Steering(s) && s.turn.value.settlement.completed
  }

  // ---------------------------------------------------------------------------
  // The guards
  // ---------------------------------------------------------------------------

  /** The turn as an exact `turn/started` for it leaves it. */
  function AsProven(t: Turn, id: Id, native: NativeTurn): Turn {
    if |Exact(native, t.clientId)| != 1 then t
    else if t.identity.canonical.Some? then OpenStarted(t, id)
    else OpenStarted(t.(identity := t.identity.(canonical := Some(id), proof := Some(ExactStarted))), id)
  }

  /** `turn/started` for the proven turn may steer the queue head. */
  predicate StartAdmits(s: State, id: Id, native: NativeTurn)
    requires s.turn.Some?
  {
    var t := s.turn.value;
    var u := AsProven(t, id, native);
    && (|Exact(native, t.clientId)| == 1 && t.identity.canonical.Some? ==> t.identity.canonical == Some(id))
    && u.identity.nativeId == Some(id) && ExactlyProven(u) && Admits(WithTurn(s, u))
  }

  /** One of the notes is the `turn/started` of that turn. */
  predicate StartedIn(notes: seq<Notification>, id: Option<Id>) {
    exists k :: 0 <= k < |notes| && notes[k].StartedNote? && Some(notes[k].id) == id
  }

  /** When the root response comes to the completions buffered before the group
      began to grow, the unsettled turn has a steer outstanding: since before the
      response, or since the buffered `turn/started` of the proven turn. */
  predicate ReplaysUnderSteer(s: State, id: Option<Id>)
    requires s.point.AwaitRoot? && s.turn.Some?
  {
    var t, responseId := s.turn.value, ResponseId(s, id);
    && !ResponseContradicts(t, responseId) && !s.fenced && !t.settlement.completed
    && (Steering(s) || (ExactlyProven(t) && Admits(Bound(s, responseId)) && StartedIn(t.buffers.notes, responseId)))
  }

  function ResponseId(s: State, id: Option<Id>): Option<Id>
    requires s.turn.Some?
  {
    if id.Some? then id else s.turn.value.identity.nativeId
  }

  /** The completions buffered before the response, none of which carries the
      root's client id once, are not the turn's own, so history is searched. */
  predicate PendingLooksUp(t: Turn) {
    var mine := NativeMatches(t.buffers.completions, t.identity.nativeId);
    && t.buffers.completions != [] && t.settlement.scan == NoScan && t.clientId.Some?
    && |mine| <= 1 && (|mine| == 1 ==> t.request.kind == SteerRequest)
  }

  /** They settle the turn at once. */
  predicate PendingSettles(t: Turn) {
    var mine := NativeMatches(t.buffers.completions, t.identity.nativeId);
    && t.buffers.completions != []
    && if |mine| > 1 then true
       else if t.request.kind == StartRequest && |mine| == 1 then Terminal(mine[0])
       else t.settlement.scan == NoScan && t.clientId.None?
  }

  /** A page set that ends a single-root lookup. */
  predicate ScanSettles(t: Turn, history: seq<NativeTurn>, keepPending: bool, now: int) {
    || Repeats(history, t.clientId) || SingleMatches(history, t.clientId) != []
    || !keepPending || OwnTerminal(history, t.identity.nativeId) || DeadlinePassed(t, now)
  }

  /** The steps that put a lookup and a steer on one turn: a steer admitted while
      the lookup runs, or a lookup started while the steer is outstanding. */
  predicate StartsOverlap(s: State, step: Step) {
    match step
    case Enqueue(line) => line.Framed? && LookedUp(s) && Admits(Pushed(s, line))
    case TurnStarted(id, native) => id.Some? && LookedUp(s) && StartAdmits(s, id.value, native)
    case RootResponse(id, now) =>
      && s.point.AwaitRoot? && s.turn.Some? && ReplaysUnderSteer(s, id)
      && PendingLooksUp(BoundTurn(s.turn.value, ResponseId(s, id)))
    case SteerReplied(reply) => LosesInput(s, step) && LookedUp(s) && Admits(SteerAccepted(s))
    case _ => false
  }

  /** The steps that settle a turn under its own steer: the lookup ends first, or
      the root response settles it from what was buffered. */
  predicate SettlesUnderSteer(s: State, step: Step) {
    match step
    case HistoryScanned(history, now) =>
      && Overlaps(s) && !s.turn.value.settlement.completed
      && ScanSettles(s.turn.value, history, s.turn.value.settlement.scan.keepPending, now)
    case HistoryFailed => Overlaps(s) && !s.turn.value.settlement.completed
    case RootResponse(id, now) =>
      && s.point.AwaitRoot? && s.turn.Some? && ReplaysUnderSteer(s, id)
      && PendingSettles(BoundTurn(s.turn.value, ResponseId(s, id)))
    case _ => false
  }

  // ---------------------------------------------------------------------------
  // Nothing else breaks the barrier
  // ---------------------------------------------------------------------------

  lemma UngrownIsUnsteered(s: State)
    requires Shaped(s) && s.turn.Some? && !InGroupMode(s.turn.value)
    ensures s.fenced || !Steering(s)
  {
  }

  lemma TrackKeepsBarrier(s: State, id: Id, native: NativeTurn)
    requires s.turn.Some? && !BarrierBroken(s)
    ensures !BarrierBroken(TrackStarted(s, id, native))
    ensures TrackStarted(s, id, native).turn.value.settlement.scan == s.turn.value.settlement.scan
  {
  }

  lemma TrackedKeepsBarrier(s: State, id: Id, native: NativeTurn)
    requires s.turn.Some? && !BarrierBroken(s)
    ensures !BarrierBroken(Tracked(s, id, native))
    ensures Tracked(s, id, native).turn.value.settlement.scan == s.turn.value.settlement.scan
  {
    if |Exact(native, s.turn.value.clientId)| != 1 {
      TrackKeepsBarrier(s, id, native);
    } else {
      var (s1, proceed) := ProveExact(s, id, ExactStarted);
      if proceed {
        TrackKeepsBarrier(WithTurn(s1, OpenStarted(s1.turn.value, id)), id, native);
      }
    }
  }

  lemma StartedKeepsBarrier(s: State, id: Option<Id>, native: NativeTurn, replayed: bool)
    requires !BarrierBroken(s)
    ensures !BarrierBroken(OnStarted(s, id, native, replayed))
    ensures s.turn.Some? ==> OnStarted(s, id, native, replayed).turn.value.settlement.scan == s.turn.value.settlement.scan
  {
    var s1 := if id.Some? && (!replayed || s.nativeActive.None? || s.nativeActive == id) then s.(nativeActive := id) else s;
    if s1.turn.Some? && id.Some? {
      TrackedKeepsBarrier(s1, id.value, native);
    }
  }

  lemma ProgressKeepsBarrier(s: State, id: Option<Id>, effect: ProgressEffect, now: int)
    requires !BarrierBroken(s)
    ensures !BarrierBroken(OnProgress(s, id, effect, now))
    ensures s.turn.Some? ==> OnProgress(s, id, effect, now).turn.value.settlement.scan == s.turn.value.settlement.scan
  {
  }

  lemma GroupCompletedKeepsBarrier(s: State, id: Option<Id>, native: NativeTurn)
    requires s.turn.Some? && InGroupMode(s.turn.value) && !BarrierBroken(s)
    requires s.turn.value.phase == Fenced ==> s.turn.value.settlement.completed
    ensures !BarrierBroken(GroupCompleted(s, id, native))
    ensures GroupCompleted(s, id, native).turn.value.settlement.scan.SingleScan? ==> LookedUp(s)
  {
    var s1 := WithTurn(s, BufferCompletion(s.turn.value, id, native));
    if !s1.turn.value.group.steerInFlight {
      BufferTends(s, id, native);
      SteeredTends(s1, native);
      GroupScanTends(s1);
    }
  }

  lemma SingleCompletedKeepsBarrier(s: State, id: Option<Id>, native: NativeTurn)
    requires s.turn.Some? && !BarrierBroken(s) && (s.fenced || !Steering(s))
    ensures !BarrierBroken(SingleCompleted(s, id, native)) && !Overlaps(SingleCompleted(s, id, native))
  {
    if !Upgrades(s.turn.value, id, native) {
      SingleCompletedTends(s, id, native);
    }
  }

  lemma CompletedKeepsBarrier(s: State, id: Option<Id>, native: NativeTurn)
    requires Shaped(s) && !BarrierBroken(s)
    ensures !BarrierBroken(OnCompleted(s, id, native))
    ensures Overlaps(OnCompleted(s, id, native)) ==> Overlaps(s)
  {
    var s1 := s.(nativeActive := Released(s, id));
    if s1.turn.Some? {
      if InGroupMode(s1.turn.value) {
        GroupCompletedKeepsBarrier(s1, id, native);
        GroupCompletedKeepsSteer(s1, id, native);
      } else {
        UngrownIsUnsteered(s);
        SingleCompletedKeepsBarrier(s1, id, native);
      }
    }
  }

  lemma GroupCompletedKeepsSteer(s: State, id: Option<Id>, native: NativeTurn)
    requires s.turn.Some?
    ensures GroupCompleted(s, id, native).turn.Some? && GroupCompleted(s, id, native).fenced == s.fenced
    ensures GroupCompleted(s, id, native).turn.value.group.steerInFlight == s.turn.value.group.steerInFlight
  {
  }

  lemma {:induction false} ReplayKeepsBarrier(s: State, notes: seq<Notification>, now: int)
    requires s.turn.Some? && !BarrierBroken(s)
    ensures !BarrierBroken(ReplayAll(s, notes, now))
    ensures ReplayAll(s, notes, now).turn.value.settlement.scan == s.turn.value.settlement.scan
    decreases |notes|
  {
    if notes != [] {
      match notes[0] {
        case StartedNote(id, native) => StartedKeepsBarrier(s, Some(id), native, true);
        case ProgressNote(id, effect) => ProgressKeepsBarrier(s, Some(id), effect, now);
      }
      ReplayKeepsBarrier(ReplayOne(s, notes[0], now), notes[1..], now);
    }
  }

  lemma ResponseSettlesUnsteered(s: State)
    requires s.turn.Some? && !BarrierBroken(s)
    ensures !BarrierBroken(SettleAfterResponse(s))
    ensures SettleAfterResponse(s).turn.value.settlement.scan.SingleScan? ==> LookedUp(s)
  {
    if Steering(s) {
      assert SettleAfterResponse(s) == s;
    } else {
      SettlingKeepsSteer(s);
    }
  }

  lemma SettlingKeepsSteer(s: State)
    requires s.turn.Some?
    ensures SettleAfterResponse(s).turn.value.group.steerInFlight == s.turn.value.group.steerInFlight
    ensures SettleAfterResponse(s).turn.value.settlement.scan.SingleScan? ==> LookedUp(s)
  {
    assert ResumeBuffered(s).turn.value.group.steerInFlight == s.turn.value.group.steerInFlight;
  }

  lemma SettledKeepsBarrier(s: State, id: Option<Id>, now: int)
    requires Shaped(s) && s.point.AwaitRoot? && !BarrierBroken(s)
    ensures !BarrierBroken(Settled(s, id, now)) && !LookedUp(Settled(s, id, now))
  {
    var s0 := Bound(s, id);
    ResponseSettlesUnsteered(s0);
    var s1 := SettleAfterResponse(s0);
    var s2 := WithTurn(s1, s1.turn.value.(buffers := s1.turn.value.buffers.(notes := [])));
    ReplayKeepsBarrier(s2, s1.turn.value.buffers.notes, now);
  }

  // ---- replaying what the response chose ------------------------------------

  /** Everything the settlement of a buffered completion depends on. */
  predicate SameStake(t: Turn, u: Turn) {
    && u.clientId == t.clientId && u.request.kind == t.request.kind && u.request.pending == t.request.pending
    && u.identity == t.identity && u.group.members == t.group.members && u.group.closed == t.group.closed
    && u.settlement.completionSeen == t.settlement.completionSeen && u.settlement.terminal == t.settlement.terminal
    && u.settlement.scan == t.settlement.scan && u.settlement.completed == t.settlement.completed
    && u.settlement.conflictReported == t.settlement.conflictReported
  }

  predicate LeavesStake(s: State, r: State) {
    s.turn.Some? && r.turn.Some? && r.fenced == s.fenced && SameStake(s.turn.value, r.turn.value)
  }

  /** The native id is the proven one, if there is one. */
  predicate Agreed(s: State) {
    s.turn.Some? && (s.turn.value.identity.nativeId.Some? ==> s.turn.value.identity.canonical == s.turn.value.identity.nativeId)
  }

  lemma AdmitLeavesStake(s: State)
    requires s.turn.Some?
    ensures LeavesStake(s, TryAdmit(s)) && !Admits(TryAdmit(s))
    ensures Steering(TryAdmit(s)) <==> Steering(s) || Admits(s)
  {
  }

  lemma TrackReplays(s: State, id: Id, native: NativeTurn)
    requires s.turn.Some? && s.turn.value.identity.nativeId == Some(id)
    ensures var r := TrackStarted(s, id, native);
      && LeavesStake(s, r)
      && (Steering(r) <==> Steering(s) || (ExactlyProven(s.turn.value) && Admits(s)))
      && (Admits(r) <==> Admits(s) && !ExactlyProven(s.turn.value))
  {
    var seen := WithTurn(s, s.turn.value.(request := s.turn.value.request.(serverStarted := true)));
    assert Admits(seen) <==> Admits(s);
    AdmitLeavesStake(seen);
  }

  lemma StartReplays(s: State, id: Id, native: NativeTurn)
    requires Agreed(s) && s.turn.value.identity.nativeId == Some(id)
    ensures var r := Tracked(s, id, native);
      && LeavesStake(s, r)
      && (Steering(r) <==> Steering(s) || (ExactlyProven(s.turn.value) && Admits(s)))
      && (Admits(r) <==> Admits(s) && !ExactlyProven(s.turn.value))
  {
    TrackReplays(s, id, native);
    var entered := WithTurn(s, OpenStarted(s.turn.value, id));
    assert Admits(entered) <==> Admits(s);
    TrackReplays(entered, id, native);
  }

  lemma ProgressReplays(s: State, id: Id, effect: ProgressEffect, now: int)
    requires s.turn.Some?
    ensures var r := OnProgress(s, Some(id), effect, now);
      LeavesStake(s, r) && (Steering(r) <==> Steering(s)) && (Admits(r) <==> Admits(s))
  {
    var t, r := s.turn.value, OnProgress(s, Some(id), effect, now);
    var advanced := Advanced(t, effect, now + s.config.keepPendingWindow);
    AdvancedReplays(t, effect, now + s.config.keepPendingWindow);
    assert r.turn == s.turn || r.turn == Some(advanced) || r.turn == Some(t.(buffers := r.turn.value.buffers));
    AdmissionFrame(s, r);
  }

  lemma AdvancedReplays(t: Turn, effect: ProgressEffect, deadline: int)
    ensures var u := Advanced(t, effect, deadline); SameStake(t, u) && u.group == t.group && u.phase == t.phase
  {
  }

  lemma AdmissionFrame(s: State, r: State)
    requires s.turn.Some? && r.turn.Some? && r.fenced == s.fenced && r.steer == s.steer && r.queue == s.queue
    requires var t, u := s.turn.value, r.turn.value;
      && u.group == t.group && u.phase == t.phase && u.identity == t.identity
      && u.settlement.completed == t.settlement.completed
    ensures Admits(r) <==> Admits(s)
  {
  }

  lemma NoteReplays(s: State, note: Notification, now: int)
    requires Agreed(s) && s.turn.value.identity.nativeId == Some(note.id)
    ensures var r := Replayed(s, note, now);
      var admits := note.StartedNote? && ExactlyProven(s.turn.value) && Admits(s);
      && LeavesStake(s, r) && (Steering(r) <==> Steering(s) || admits) && (Admits(r) <==> Admits(s) && !admits)
  {
    match note
    case StartedNote(id, native) =>
      var s1 := if s.nativeActive.None? || s.nativeActive == Some(id) then s.(nativeActive := Some(id)) else s;
      assert Admits(s1) <==> Admits(s);
      StartReplays(s1, id, native);
    case ProgressNote(id, effect) => ProgressReplays(s, id, effect, now);
  }

  lemma StartedInFirst(notes: seq<Notification>, id: Option<Id>)
    requires notes != []
    ensures StartedIn(notes, id) <==> (notes[0].StartedNote? && Some(notes[0].id) == id) || StartedIn(notes[1..], id)
  {
    if StartedIn(notes[1..], id) {
      var k :| 0 <= k < |notes| - 1 && notes[1..][k].StartedNote? && Some(notes[1..][k].id) == id;
      assert notes[k + 1] == notes[1..][k];
    }
    if StartedIn(notes, id) && !(notes[0].StartedNote? && Some(notes[0].id) == id) {
      var k :| 0 <= k < |notes| && notes[k].StartedNote? && Some(notes[k].id) == id;
      assert notes[1..][k - 1] == notes[k];
    }
  }

  /** Replaying the notes of the proven turn settles nothing, and steers exactly if
      one of them is its exact start and the queue head may be steered. */
  lemma {:induction false} ReplaySteersExactly(s: State, notes: seq<Notification>, now: int)
    requires Agreed(s)
    ensures var r := ReplayAll(s, notes, now); var t := s.turn.value;
      && LeavesStake(s, r)
      && (Steering(r) <==> Steering(s) || (ExactlyProven(t) && Admits(s) && StartedIn(notes, t.identity.nativeId)))
    decreases |notes|
  {
    if notes != [] {
      StartedInFirst(notes, s.turn.value.identity.nativeId);
      if Some(notes[0].id) == s.turn.value.identity.nativeId {
        NoteReplays(s, notes[0], now);
      }
      ReplaySteersExactly(ReplayOne(s, notes[0], now), notes[1..], now);
    }
  }

  /** The whole replay, from the response as it was bound and settled. */
  lemma NotesSteerExactly(s: State, now: int)
    requires Agreed(s)
    ensures var t := s.turn.value;
      var r := ReplayAll(WithTurn(s, t.(buffers := t.buffers.(notes := []))), t.buffers.notes, now);
      && LeavesStake(s, r)
      && (Steering(r) <==> Steering(s) || (ExactlyProven(t) && Admits(s) && StartedIn(t.buffers.notes, t.identity.nativeId)))
  {
    var t := s.turn.value;
    var cleared := WithTurn(s, t.(buffers := t.buffers.(notes := [])));
    assert Admits(cleared) <==> Admits(s);
    ReplaySteersExactly(cleared, t.buffers.notes, now);
  }

  lemma AccountTransitive(s: State, m: State, r: State)
    requires s.turn.Some? && KeepsAccount(s, m) && KeepsAccount(m, r)
    ensures KeepsAccount(s, r)
  {
  }

  lemma {:induction false} ReplayKeepsAccount(origin: State, s: State, notes: seq<Notification>, now: int)
    requires origin.turn.Some? && s.turn.Some? && KeepsAccount(origin, s)
    ensures KeepsAccount(origin, ReplayAll(s, notes, now))
    decreases |notes|
  {
    if notes != [] {
      AccountTransitive(origin, s, ReplayOne(s, notes[0], now));
      ReplayKeepsAccount(origin, ReplayOne(s, notes[0], now), notes[1..], now);
    }
  }

  lemma SettledKeepsAccount(s: State, id: Option<Id>, now: int)
    requires s.turn.Some?
    ensures KeepsAccount(SettleAfterResponse(Bound(s, id)), Settled(s, id, now))
  {
    var s1 := SettleAfterResponse(Bound(s, id));
    var s2 := WithTurn(s1, s1.turn.value.(buffers := s1.turn.value.buffers.(notes := [])));
    ReplayKeepsAccount(s1, s2, s1.turn.value.buffers.notes, now);
    var s3 := ReplayAll(s2, s1.turn.value.buffers.notes, now);
    assert KeepsAccount(s3, Settled(s, id, now));
    AccountTransitive(s1, s3, Settled(s, id, now));
  }

  lemma BoundAgrees(s: State, id: Option<Id>)
    requires Shaped(s) && s.point.AwaitRoot? && !s.turn.value.settlement.completed
    ensures Agreed(Bound(s, id))
  {
  }

  /** The guard on the state before the step says what the steer looks like when
      the step comes to the buffered completions. */
  lemma {:induction false} ReplayedUnderSteerExactly(s: State, id: Option<Id>, now: int)
    requires Shaped(s) && s.point.AwaitRoot? && !ResponseContradicts(s.turn.value, ResponseId(s, id))
    ensures var replayed := Settled(s, ResponseId(s, id), now);
      var open := !replayed.fenced && Steering(replayed) && !replayed.turn.value.settlement.completed;
      && (open <==> ReplaysUnderSteer(s, id))
      && (open ==> SameStake(BoundTurn(s.turn.value, ResponseId(s, id)), replayed.turn.value))
  {
    var responseId := ResponseId(s, id);
    SettledKept(s, responseId, now);
    SettledKeepsAccount(s, responseId, now);
    if !s.fenced && !s.turn.value.settlement.completed {
      var b := Bound(s, responseId);
      BoundKept(s, responseId);
      BoundAgrees(s, responseId);
      if SettleAfterResponse(b) == b {
        NotesSteerExactly(b, now);
      } else {
        SettledUnsteered(s, responseId, now);
      }
    }
  }

  lemma SettledUnsteered(s: State, id: Option<Id>, now: int)
    requires Shaped(s) && s.point.AwaitRoot? && !s.fenced && !s.turn.value.settlement.completed
    requires !ResponseContradicts(s.turn.value, id) && SettleAfterResponse(Bound(s, id)) != Bound(s, id)
    ensures !Steering(Bound(s, id)) && !Admits(Bound(s, id))
    ensures Steering(Settled(s, id, now)) ==> Settled(s, id, now).turn.value.settlement.completed
  {
    var b := Bound(s, id);
    BoundKept(s, id);
    SettleAfterResponseKept(b);
    SettlingKeepsSteer(b);
    var s1 := SettleAfterResponse(b);
    if s1.turn.value.settlement.completed {
      SettledKeepsAccount(s, id, now);
    } else {
      SettlingKeepsIdentity(b);
      BoundAgrees(s, id);
      NotesSteerExactly(s1, now);
    }
  }

  lemma ConflictDecides(s: State, reason: Reason)
    requires s.turn.Some?
    ensures var t, u := s.turn.value, ReportConflict(s, reason).turn.value;
      && (u.settlement.completed <==> t.settlement.completed || !t.settlement.conflictReported)
      && u.settlement.scan == t.settlement.scan
  {
  }

  lemma CompletionDecides(s: State, native: NativeTurn, at: Option<nat>)
    requires s.turn.Some?
    ensures var t, u := s.turn.value, CompleteFromNative(s, native, at).turn.value;
      && (u.settlement.completed <==> t.settlement.completed || Terminal(native))
      && u.settlement.scan == t.settlement.scan
  {
  }

  lemma LookupDecides(s: State, keep: bool, now: int)
    requires s.turn.Some? && !s.turn.value.settlement.completed && !s.turn.value.settlement.conflictReported
    ensures var t, u := s.turn.value, StartSingleScan(s, keep, now).turn.value;
      && (u.settlement.completed <==> t.settlement.scan == NoScan && t.clientId.None?)
      && (u.settlement.scan.SingleScan? <==> t.settlement.scan.SingleScan? || (t.settlement.scan == NoScan && t.clientId.Some?))
  {
    ConflictDecides(s, LegacyInput);
  }

  /** What the buffered completions of `held` decide for the turn as it is. */
  lemma PendingDecides(s: State, held: Turn, now: int)
    requires s.turn.Some? && !s.turn.value.settlement.completed && !s.turn.value.settlement.conflictReported
    requires SameStake(held, s.turn.value) && ExactMatches(held.buffers.completions, held.clientId) == []
    ensures var t, u := s.turn.value, SettlePending(s, held.buffers.completions, now).turn.value;
      && (u.settlement.completed <==> PendingSettles(held))
      && (u.settlement.scan.SingleScan? <==> t.settlement.scan.SingleScan? || PendingLooksUp(held))
  {
    var t := s.turn.value;
    var mine := NativeMatches(held.buffers.completions, t.identity.nativeId);
    if |mine| > 1 {
      ConflictDecides(s, ManyMatches);
    } else if t.request.kind == StartRequest && |mine| == 1 {
      CompletionDecides(s, mine[0], None);
    } else {
      LookupDecides(s, !(t.request.kind == SteerRequest && |mine| == 1), now);
    }
  }

  lemma PendingKeepsSteer(s: State, pending: seq<NativeTurn>, now: int)
    requires s.turn.Some? && s.turn.value.request.accepted
    ensures var r := SettlePending(s, pending, now);
      && r.fenced == s.fenced && (Steering(r) <==> Steering(s))
      && (s.turn.value.settlement.completed ==> r == s)
  {
    SettlePendingTends(s, pending, now);
  }

  /** The end of the root response: buffered completions, then the next steer. */
  function Concluded(s: State, pending: seq<NativeTurn>, now: int): State
    requires s.turn.Some?
  {
    var r := SettlePending(s, pending, now);
    if !r.turn.value.settlement.completed && r.turn.value.settlement.scan == NoScan then TryAdmit(r) else r
  }

  lemma ConclusionExactly(s: State, held: Turn, now: int)
    requires s.turn.Some? && Settling(s.turn.value) && s.turn.value.request.accepted
    requires !BarrierBroken(s) && !LookedUp(s)
    requires ExactMatches(held.buffers.completions, held.clientId) == []
    requires !s.fenced && Steering(s) && !s.turn.value.settlement.completed ==> SameStake(held, s.turn.value)
    ensures var r := Concluded(s, held.buffers.completions, now);
      var open := !s.fenced && Steering(s) && !s.turn.value.settlement.completed;
      && (BarrierBroken(r) <==> open && PendingSettles(held))
      && (Overlaps(r) <==> open && PendingLooksUp(held))
  {
    PendingKeepsSteer(s, held.buffers.completions, now);
    if !s.fenced && Steering(s) && !s.turn.value.settlement.completed {
      PendingDecides(s, held, now);
    }
  }

  lemma RootResponseBreaksExactly(s: State, id: Option<Id>, now: int)
    requires Shaped(s) && s.point.AwaitRoot? && !BarrierBroken(s)
    ensures BarrierBroken(OnRootResponse(s, id, now)) <==> SettlesUnderSteer(s, RootResponse(id, now))
    ensures Overlaps(OnRootResponse(s, id, now)) <==> StartsOverlap(s, RootResponse(id, now))
  {
    var responseId := ResponseId(s, id);
    if ResponseContradicts(s.turn.value, responseId) {
      assert OnRootResponse(s, id, now).fenced;
    } else {
      AgreedResponseExactly(s, id, now);
    }
  }

  lemma AgreedResponseExactly(s: State, id: Option<Id>, now: int)
    requires Shaped(s) && s.point.AwaitRoot? && !BarrierBroken(s) && !ResponseContradicts(s.turn.value, ResponseId(s, id))
    ensures var held := BoundTurn(s.turn.value, ResponseId(s, id));
      var r := Concluded(Settled(s, ResponseId(s, id), now), held.buffers.completions, now);
      && (BarrierBroken(r) <==> ReplaysUnderSteer(s, id) && PendingSettles(held))
      && (Overlaps(r) <==> ReplaysUnderSteer(s, id) && PendingLooksUp(held))
  {
    var responseId := ResponseId(s, id);
    SettledKept(s, responseId, now);
    SettledKeepsBarrier(s, responseId, now);
    ReplayedUnderSteerExactly(s, id, now);
    ConclusionExactly(Settled(s, responseId, now), BoundTurn(s.turn.value, responseId), now);
  }

  lemma SteerReplyKeepsBarrier(s: State, reply: SteerReply)
    requires Shaped(s) && s.steer.Some? && !BarrierBroken(s)
    ensures !BarrierBroken(OnSteerReply(s, reply))
  {
    if reply.SteerTurn? && SteerMatches(s, reply.turnId) {
      AcceptedKeepsBarrier(s);
    }
  }

  lemma AcceptedKeepsBarrier(s: State)
    requires Shaped(s) && s.steer.Some? && s.queue != [] && !BarrierBroken(s)
    ensures SteerIsLive(s) ==> !BarrierBroken(ResumeBuffered(SteerAccepted(s)))
    ensures !BarrierBroken(TryAdmit(SteerAccepted(s)))
  {
  }

  lemma LookupBreaksExactly(s: State, history: seq<NativeTurn>, now: int)
    requires Shaped(s) && s.turn.Some? && !BarrierBroken(s)
    ensures BarrierBroken(OnHistory(s, history, now)) <==> SettlesUnderSteer(s, HistoryScanned(history, now))
  {
    match s.turn.value.settlement.scan
    case NoScan =>
    case SingleScan(keep) => ScanBreaksExactly(s, history, keep, now);
    case GroupScan => GroupLookupKeepsBarrier(s, history);
  }

  lemma ScanBreaksExactly(s: State, history: seq<NativeTurn>, keep: bool, now: int)
    requires Shaped(s) && s.turn.Some? && !BarrierBroken(s)
    ensures BarrierBroken(OnSingleScan(s, history, keep, now))
       <==> !s.fenced && Steering(s) && !s.turn.value.settlement.completed && ScanSettles(s.turn.value, history, keep, now)
  {
  }

  lemma GroupLookupKeepsBarrier(s: State, history: seq<NativeTurn>)
    requires s.turn.Some? && !Steering(s)
    ensures !BarrierBroken(OnGroupScan(s, history))
  {
  }

  lemma FailedLookupBreaksExactly(s: State)
    requires Shaped(s) && s.turn.Some? && !BarrierBroken(s)
    ensures BarrierBroken(OnHistoryFailed(s)) <==> SettlesUnderSteer(s, HistoryFailed)
  {
  }

  /** A turn is settled under its own steer by exactly these steps. */
  lemma {:induction false} BarrierBreaksExactly(s: State, step: Step)
    requires Shaped(s) && !BarrierBroken(s)
    ensures BarrierBroken(Next(s, step)) <==> SettlesUnderSteer(s, step)
  {
    if Enabled(s, step) {
      match step
      case RootResponse(id, now) => RootResponseBreaksExactly(s, id, now);
      case SteerReplied(reply) => SteerReplyKeepsBarrier(s, reply);
      case TurnStarted(id, native) => StartedKeepsBarrier(s, id, native, false);
      case TurnCompleted(id, native) => CompletedKeepsBarrier(s, id, native);
      case HistoryScanned(history, now) => LookupBreaksExactly(s, history, now);
      case HistoryFailed => FailedLookupBreaksExactly(s);
      case Progress(id, effect, now) => ProgressKeepsBarrier(s, id, effect, now);
      case Enqueue(line) => EnqueueKeepsBarrier(s, line);
      case RootError(failure) => ErrorKeepsBarrier(s, failure);
      case _ =>
    }
  }

  lemma EnqueueKeepsBarrier(s: State, line: Line)
    requires !BarrierBroken(s)
    ensures !BarrierBroken(OnEnqueue(s, line))
  {
  }

  lemma ErrorKeepsBarrier(s: State, failure: RpcFailure)
    requires s.point.AwaitRoot? && s.turn.Some? && !BarrierBroken(s)
    ensures !BarrierBroken(OnRootError(s, failure)) && (Overlaps(OnRootError(s, failure)) ==> Overlaps(s))
  {
  }

  // ---------------------------------------------------------------------------
  // Nothing else overlaps
  // ---------------------------------------------------------------------------

  lemma EnqueueOverlapsExactly(s: State, line: Line)
    requires !Overlaps(s)
    ensures Overlaps(OnEnqueue(s, line)) <==> StartsOverlap(s, Enqueue(line))
  {
    var s1 := if line.Framed? then TryAdmit(Pushed(s, line)) else Pushed(s, line);
    assert OnEnqueue(s, line).turn == s1.turn && OnEnqueue(s, line).fenced == s1.fenced;
  }

  lemma TrackOverlapsExactly(s: State, id: Id, native: NativeTurn)
    requires LookedUp(s) && !Overlaps(s)
    ensures Overlaps(TrackStarted(s, id, native))
       <==> s.turn.value.identity.nativeId == Some(id) && ExactlyProven(s.turn.value) && Admits(s)
  {
  }

  lemma TrackedOverlapsExactly(s: State, id: Id, native: NativeTurn)
    requires s.turn.Some? && !Overlaps(s)
    ensures Overlaps(Tracked(s, id, native)) <==> LookedUp(s) && StartAdmits(s, id, native)
  {
    if !LookedUp(s) {
      TrackedLooksUpNothing(s, id, native);
    } else if |Exact(native, s.turn.value.clientId)| != 1 {
      TrackOverlapsExactly(s, id, native);
    } else {
      var (s1, proceed) := ProveExact(s, id, ExactStarted);
      if proceed {
        TrackOverlapsExactly(WithTurn(s1, OpenStarted(s1.turn.value, id)), id, native);
      }
    }
  }

  lemma TrackedLooksUpNothing(s: State, id: Id, native: NativeTurn)
    requires s.turn.Some?
    ensures Tracked(s, id, native).turn.value.settlement.scan == s.turn.value.settlement.scan
  {
    var (s1, proceed) := ProveExact(s, id, ExactStarted);
    if |Exact(native, s.turn.value.clientId)| == 1 && proceed {
      TrackLooksUpNothing(WithTurn(s1, OpenStarted(s1.turn.value, id)), id, native);
    }
  }

  lemma TrackLooksUpNothing(s: State, id: Id, native: NativeTurn)
    requires s.turn.Some?
    ensures TrackStarted(s, id, native).turn.value.settlement.scan == s.turn.value.settlement.scan
  {
  }

  lemma StartedOverlapsExactly(s: State, id: Option<Id>, native: NativeTurn)
    requires !Overlaps(s)
    ensures Overlaps(OnStarted(s, id, native, false)) <==> StartsOverlap(s, TurnStarted(id, native))
  {
    if s.turn.Some? && id.Some? {
      TrackedOverlapsExactly(s.(nativeActive := id), id.value, native);
      assert StartAdmits(s.(nativeActive := id), id.value, native) <==> StartAdmits(s, id.value, native);
    }
  }

  lemma AcceptedOverlapsExactly(s: State)
    requires Shaped(s) && s.steer.Some? && s.queue != [] && !Overlaps(s)
    ensures SteerIsLive(s) ==> !Overlaps(ResumeBuffered(SteerAccepted(s)))
    ensures Overlaps(TryAdmit(SteerAccepted(s))) <==> !s.fenced && !SteerIsLive(s) && LookedUp(s) && Admits(SteerAccepted(s))
  {
  }

  lemma SteerReplyOverlapsExactly(s: State, reply: SteerReply)
    requires Shaped(s) && s.steer.Some? && !Overlaps(s)
    ensures Overlaps(OnSteerReply(s, reply)) <==> StartsOverlap(s, SteerReplied(reply))
  {
    if reply.SteerTurn? && SteerMatches(s, reply.turnId) {
      AcceptedOverlapsExactly(s);
    }
  }

  /** A lookup and a steer come to share a turn by exactly these steps. */
  lemma {:induction false} OverlapsExactly(s: State, step: Step)
    requires Shaped(s) && !BarrierBroken(s) && !Overlaps(s)
    ensures Overlaps(Next(s, step)) <==> StartsOverlap(s, step)
  {
    if Enabled(s, step) {
      match step
      case Enqueue(line) => EnqueueOverlapsExactly(s, line);
      case RootResponse(id, now) => RootResponseBreaksExactly(s, id, now);
      case SteerReplied(reply) => SteerReplyOverlapsExactly(s, reply);
      case TurnStarted(id, native) => StartedOverlapsExactly(s, id, native);
      case _ => OtherStepsOverlapNothing(s, step);
    }
  }

  lemma OtherStepsOverlapNothing(s: State, step: Step)
    requires Shaped(s) && !BarrierBroken(s) && !Overlaps(s) && Enabled(s, step)
    requires !step.Enqueue? && !step.RootResponse? && !step.SteerReplied? && !step.TurnStarted?
    ensures !Overlaps(Next(s, step))
  {
    match step
    case RootError(failure) => ErrorKeepsBarrier(s, failure);
    case TurnCompleted(id, native) => CompletedKeepsBarrier(s, id, native);
    case HistoryScanned(history, now) => LookupOverlapsNothing(s, history, now);
    case _ =>
  }

  lemma LookupOverlapsNothing(s: State, history: seq<NativeTurn>, now: int)
    requires s.turn.Some? && !Overlaps(s)
    ensures !Overlaps(OnHistory(s, history, now))
  {
  }

  // ---------------------------------------------------------------------------
  // Finals
  // ---------------------------------------------------------------------------

  /** Finals come from `Finalize`, after the root response, or for a root the
      server definitely rejected before anything joined it. The steer of the
      finalized group is outstanding exactly if the barrier is broken. */
  lemma {:induction false} FinalsWaitForRpcs(s: State, step: Step)
    requires Shaped(s) && Next(s, step).finals != s.finals
    ensures s.turn.Some? && !(s.turn.value.phase == Fenced)
    ensures SteerIsLive(s) <==> BarrierBroken(s)
    ensures step.Finalize? ==> s.turn.value.request.accepted && !s.turn.value.request.pending
    ensures !step.Finalize? ==> step.RootError? && !s.fenced && |s.turn.value.group.members| == 1 && s.turn.value.identity.canonical.None?
  {
  }

  /** Over every run in which no turn is settled under its own steer: whatever
      step comes next, no final overtakes an RPC of its group. */
  lemma {:induction false} NoFinalOvertakesSteer(config: Config, steps: seq<Step>, step: Step)
    requires forall k :: 0 <= k < |steps| ==> !SettlesUnderSteer(Run(Init(config), steps[..k]), steps[k])
    ensures !BarrierBroken(Run(Init(config), steps))
    ensures var s := Run(Init(config), steps); Next(s, step).finals != s.finals ==> !SteerIsLive(s)
  {
    RunShaped(config, steps);
    RunKeepsBarrier(config, steps);
    if Next(Run(Init(config), steps), step).finals != Run(Init(config), steps).finals {
      FinalsWaitForRpcs(Run(Init(config), steps), step);
    }
  }

  lemma {:induction false} RunKeepsBarrier(config: Config, steps: seq<Step>)
    requires forall k :: 0 <= k < |steps| ==> !SettlesUnderSteer(Run(Init(config), steps[..k]), steps[k])
    ensures !BarrierBroken(Run(Init(config), steps))
  {
    if steps != [] {
      var n := |steps| - 1;
      assert forall k :: 0 <= k < n ==> steps[..n][..k] == steps[..k];
      RunKeepsBarrier(config, steps[..n]);
      RunShaped(config, steps[..n]);
      BarrierBreaksExactly(Run(Init(config), steps[..n]), steps[n]);
    }
  }

  /** A broken barrier lets the final through: the group is answered, and the
      steer's input is still outstanding. */
  lemma BrokenBarrierAnswers(s: State)
    requires Shaped(s) && BarrierBroken(s) && s.point.AwaitDone?
    ensures SteerIsLive(s)
    ensures |Next(s, Finalize).finals| == |s.finals| + |s.turn.value.group.members| > |s.finals|
    ensures Next(s, Finalize).steer == s.steer && !SteerIsLive(Next(s, Finalize))
    ensures Next(s, Finalize).queue != [] && Next(s, Finalize).queue[0] == s.steer.value.dispatch.input
  {
  }
}
