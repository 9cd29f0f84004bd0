/**
 Which native turn the driver takes to be active across the root response: one that
 started since stays, and otherwise it is the root's own.
 */
module RunnerActivity {
  import opened Options
  import opened GroupIdentity
  import opened RunnerSteps
  import opened RunnerInvariant
  import opened RunnerGate

  // ---------------------------------------------------------------------------
  // Another native turn stays active
  // ---------------------------------------------------------------------------

  /** Another native turn than the active turn's own, known or proven, is active. */
  predicate GoalRuns(s: State) {
    && s.turn.Some? && s.nativeActive.Some?
    && s.nativeActive != s.turn.value.identity.nativeId && s.nativeActive != s.turn.value.identity.canonical
  }

  predicate SameGoal(s: State, r: State) {
    r.nativeActive == s.nativeActive && GoalRuns(r)
  }

  lemma SettlingKeepsGoal(s: State)
    requires GoalRuns(s)
    ensures SameGoal(s, SettleAfterResponse(s))
  {
    if CanResume(s) {
      BufferedKeepsGoal(s);
    }
    var s1 := ResumeBuffered(s);
    if SettlesBufferedCanonical(s.turn.value) {
      SteeredKeepsGoal(s1, s1.turn.value.settlement.terminal.value);
    }
  }

  lemma SteeredKeepsGoal(s: State, native: NativeTurn)
    requires GoalRuns(s) && (s.turn.value.settlement.completed || native.id == s.turn.value.identity.canonical)
    ensures SameGoal(s, SettleSteered(s, native))
    ensures SettleSteered(s, native).turn.value.identity == s.turn.value.identity
    ensures SettleSteered(s, native).turn.value.settlement.completed || s.turn.value.settlement.conflictReported
  {
  }

  lemma BufferedKeepsGoal(s: State)
    requires GoalRuns(s) && s.turn.value.settlement.terminal.Some?
    ensures SameGoal(s, SettleBuffered(s))
    ensures SettleBuffered(s).turn.value.identity == s.turn.value.identity
  {
    if s.turn.value.settlement.terminal.value.id == s.turn.value.identity.canonical {
      SteeredKeepsGoal(s, s.turn.value.settlement.terminal.value);
    }
  }

  lemma NoteKeepsGoal(s: State, note: Notification, now: int)
    requires GoalRuns(s) && s.turn.value.request.accepted
    ensures SameGoal(s, ReplayOne(s, note, now)) && ReplayOne(s, note, now).turn.value.request.accepted
  {
    if note.StartedNote? && Some(note.id) == s.turn.value.identity.nativeId {
      TrackedKeepsGoal(s, note.id, note.turn);
    }
  }

  lemma TrackKeepsGoal(s: State, id: Id, native: NativeTurn)
    requires GoalRuns(s) && s.turn.value.request.accepted
    ensures SameGoal(s, TrackStarted(s, id, native)) && TrackStarted(s, id, native).turn.value.request.accepted
  {
  }

  lemma ProofKeepsGoal(s: State, id: Id)
    requires GoalRuns(s) && s.turn.value.identity.nativeId == Some(id)
    ensures var s1 := ProveExact(s, id, ExactStarted).0;
      && SameGoal(s, s1) && s1.turn.value.request == s.turn.value.request
      && s1.turn.value.identity.nativeId == s.turn.value.identity.nativeId
  {
  }

  lemma TrackedKeepsGoal(s: State, id: Id, native: NativeTurn)
    requires GoalRuns(s) && s.turn.value.request.accepted && s.turn.value.identity.nativeId == Some(id)
    ensures SameGoal(s, Tracked(s, id, native)) && Tracked(s, id, native).turn.value.request.accepted
  {
    if |Exact(native, s.turn.value.clientId)| != 1 {
      TrackKeepsGoal(s, id, native);
    } else {
      ProofKeepsGoal(s, id);
      var (s1, proceed) := ProveExact(s, id, ExactStarted);
      TrackKeepsGoal(WithTurn(s1, OpenStarted(s1.turn.value, id)), id, native);
    }
  }

  lemma {:induction false} ReplayKeepsGoal(s: State, notes: seq<Notification>, now: int)
    requires GoalRuns(s) && s.turn.value.request.accepted
    ensures SameGoal(s, ReplayAll(s, notes, now))
    decreases |notes|
  {
    if notes != [] {
      NoteKeepsGoal(s, notes[0], now);
      ReplayKeepsGoal(ReplayOne(s, notes[0], now), notes[1..], now);
    }
  }

  lemma MineCarryId(pending: seq<NativeTurn>, id: Option<Id>)
    ensures forall native :: native in NativeMatches(pending, id) ==> native.id == id
  {
  }

  lemma PendingKeepsGoal(s: State, pending: seq<NativeTurn>, now: int)
    requires GoalRuns(s) && ExactMatches(pending, s.turn.value.clientId) == []
    ensures SettlePending(s, pending, now).nativeActive == s.nativeActive
  {
    MineCarryId(pending, s.turn.value.identity.nativeId);
    var mine := NativeMatches(pending, s.turn.value.identity.nativeId);
    if |mine| == 1 {
      assert mine[0] in mine;
      CompleteKeepsGoal(s, mine[0]);
    }
    ConflictKeepsGoal(s, ManyMatches);
    ScanKeepsGoal(s, false, now);
    ScanKeepsGoal(s, true, now);
  }

  lemma CompleteKeepsGoal(s: State, native: NativeTurn)
    requires GoalRuns(s) && native.id == s.turn.value.identity.nativeId
    ensures CompleteFromNative(s, native, None).nativeActive == s.nativeActive
  {
  }

  lemma ConflictKeepsGoal(s: State, reason: Reason)
    requires GoalRuns(s)
    ensures ReportConflict(s, reason).nativeActive == s.nativeActive
  {
  }

  lemma ScanKeepsGoal(s: State, keepPending: bool, now: int)
    requires GoalRuns(s)
    ensures StartSingleScan(s, keepPending, now).nativeActive == s.nativeActive
  {
  }

  lemma SettledKeepsGoal(s: State, id: Option<Id>, now: int)
    requires GoalRuns(s) && s.nativeActive != id
    ensures SameGoal(s, Settled(s, id, now))
  {
    var b := Bound(s, id);
    assert SameGoal(s, b) && b.turn.value.request.accepted;
    SettlingKeepsGoal(b);
    var s1 := SettleAfterResponse(b);
    SettlingKeepsAcceptance(b);
    ReplayKeepsGoal(WithTurn(s1, s1.turn.value.(buffers := s1.turn.value.buffers.(notes := []))), s1.turn.value.buffers.notes, now);
  }

  lemma SettlingKeepsAcceptance(s: State)
    requires s.turn.Some? && s.turn.value.request.accepted
    ensures SettleAfterResponse(s).turn.value.request.accepted
  {
    if CanResume(s) {
      assert ResumeBuffered(s).turn.value.request.accepted;
    }
  }

  /** Over the root response, with all it replays: an autonomous turn that is not the
      root's own stays active, so the gate stays closed for what is queued. */
  lemma {:induction false} GoalOutlivesResponse(s: State, id: Option<Id>, now: int)
    requires Shaped(s) && s.point.AwaitRoot? && GoalRuns(s) && (id.Some? ==> s.nativeActive != id)
    ensures Next(s, RootResponse(id, now)).nativeActive == s.nativeActive
  {
    var responseId := if id.Some? then id else s.turn.value.identity.nativeId;
    if !ResponseContradicts(s.turn.value, responseId) {
      SettledKeepsGoal(s, responseId, now);
      SettledKeepsClient(s, responseId, now);
      PendingKeepsGoal(Settled(s, responseId, now), s.turn.value.buffers.completions, now);
    }
  }

  lemma SettledKeepsClient(s: State, id: Option<Id>, now: int)
    requires s.turn.Some?
    ensures Settled(s, id, now).turn.value.clientId == s.turn.value.clientId
  {
    var s1 := SettleAfterResponse(Bound(s, id));
    AfterResponseKeepsClient(Bound(s, id));
    ReplayKeepsClient(WithTurn(s1, s1.turn.value.(buffers := s1.turn.value.buffers.(notes := []))), s1.turn.value.buffers.notes, now);
  }

  lemma AfterResponseKeepsClient(s: State)
    requires s.turn.Some?
    ensures SettleAfterResponse(s).turn.value.clientId == s.turn.value.clientId
  {
    assert ResumeBuffered(s).turn.value.clientId == s.turn.value.clientId;
  }

  lemma TrackKeepsClient(s: State, id: Id, native: NativeTurn)
    requires s.turn.Some?
    ensures TrackStarted(s, id, native).turn.value.clientId == s.turn.value.clientId
  {
  }

  lemma TrackedKeepsClient(s: State, id: Id, native: NativeTurn)
    requires s.turn.Some?
    ensures Tracked(s, id, native).turn.value.clientId == s.turn.value.clientId
  {
    TrackKeepsClient(s, id, native);
    ProofStaysOut(s, id, ExactStarted);
    var (s1, proceed) := ProveExact(s, id, ExactStarted);
    TrackKeepsClient(WithTurn(s1, OpenStarted(s1.turn.value, id)), id, native);
  }

  lemma NoteKeepsClient(s: State, note: Notification, now: int)
    requires s.turn.Some?
    ensures ReplayOne(s, note, now).turn.value.clientId == s.turn.value.clientId
  {
    if note.StartedNote? {
      TrackedKeepsClient(s, note.id, note.turn);
      TrackedKeepsClient(s.(nativeActive := Some(note.id)), note.id, note.turn);
    }
  }

  lemma {:induction false} ReplayKeepsClient(s: State, notes: seq<Notification>, now: int)
    requires s.turn.Some?
    ensures ReplayAll(s, notes, now).turn.value.clientId == s.turn.value.clientId
    decreases |notes|
  {
    if notes != [] {
      NoteKeepsClient(s, notes[0], now);
      ReplayKeepsClient(ReplayOne(s, notes[0], now), notes[1..], now);
    }
  }

  // ---------------------------------------------------------------------------
  // The root's own turn becomes active
  // ---------------------------------------------------------------------------

  /** Unless the turn is settled, the same native turn is active. */
  predicate SameActive(s: State, r: State) {
    s.turn.Some? && r.turn.Some? && (!r.turn.value.settlement.completed ==>
      !s.turn.value.settlement.completed && r.nativeActive == s.nativeActive
      && r.turn.value.identity.nativeId == s.turn.value.identity.nativeId)
  }

  lemma SettlingKeepsActive(s: State, native: NativeTurn)
    requires s.turn.Some? && (s.turn.value.settlement.conflictReported ==> s.turn.value.settlement.completed)
    ensures SameActive(s, SettleSteered(s, native)) && SettleSteered(s, native).turn.value.settlement.completed
  {
  }

  lemma ScanKeepsActive(s: State, keepPending: bool, now: int)
    requires s.turn.Some? && (s.turn.value.settlement.conflictReported ==> s.turn.value.settlement.completed)
    ensures SameActive(s, StartSingleScan(s, keepPending, now)) && SameActive(s, StartGroupScan(s))
  {
  }

  lemma AfterResponseKeepsActive(s: State)
    requires s.turn.Some? && (s.turn.value.settlement.conflictReported ==> s.turn.value.settlement.completed)
    ensures SameActive(s, SettleAfterResponse(s))
  {
    ScanKeepsActive(s, false, 0);
    if CanResume(s) {
      SettlingKeepsActive(s, s.turn.value.settlement.terminal.value);
    }
    if SettlesBufferedCanonical(s.turn.value) {
      assert ResumeBuffered(s) == s || CanResume(s);
      if ResumeBuffered(s) == s {
        SettlingKeepsActive(s, s.turn.value.settlement.terminal.value);
      }
    }
  }

  /** The turn's own native turn stays active, and the turn accepted. */
  predicate StaysActive(s: State, r: State) {
    && s.turn.Some? && r.turn.Some? && r.nativeActive == s.nativeActive
    && r.turn.value.identity.nativeId == s.turn.value.identity.nativeId
    && r.turn.value.request.accepted == s.turn.value.request.accepted
    && (s.turn.value.settlement.completed ==> r.turn.value.settlement.completed)
  }

  lemma TrackStaysActive(s: State, id: Id, native: NativeTurn)
    requires s.turn.Some? && s.turn.value.request.accepted
    ensures StaysActive(s, TrackStarted(s, id, native))
  {
  }

  lemma ProofStaysActive(s: State, id: Id)
    requires s.turn.Some?
    ensures StaysActive(s, ProveExact(s, id, ExactStarted).0)
  {
  }

  lemma TrackedStaysActive(s: State, id: Id, native: NativeTurn)
    requires s.turn.Some? && s.turn.value.request.accepted && s.turn.value.identity.nativeId == Some(id)
    ensures StaysActive(s, Tracked(s, id, native))
  {
    if |Exact(native, s.turn.value.clientId)| != 1 {
      TrackStaysActive(s, id, native);
    } else {
      ProofStaysActive(s, id);
      var (s1, proceed) := ProveExact(s, id, ExactStarted);
      TrackStaysActive(WithTurn(s1, OpenStarted(s1.turn.value, id)), id, native);
    }
  }

  lemma NoteStaysActive(s: State, note: Notification, now: int)
    requires s.turn.Some? && s.turn.value.request.accepted
    requires s.nativeActive.Some? && s.turn.value.identity.nativeId == s.nativeActive
    ensures StaysActive(s, ReplayOne(s, note, now))
  {
    if note.StartedNote? && Some(note.id) == s.turn.value.identity.nativeId {
      TrackedStaysActive(s, note.id, note.turn);
      assert s.(nativeActive := Some(note.id)) == s;
    }
  }

  lemma {:induction false} ReplayStaysActive(s: State, notes: seq<Notification>, now: int)
    requires s.turn.Some? && s.turn.value.request.accepted
    requires s.nativeActive.Some? && s.turn.value.identity.nativeId == s.nativeActive
    ensures StaysActive(s, ReplayAll(s, notes, now))
    decreases |notes|
  {
    if notes != [] {
      NoteStaysActive(s, notes[0], now);
      ReplayStaysActive(ReplayOne(s, notes[0], now), notes[1..], now);
    }
  }

  lemma {:induction false} ReplayStaysSettled(s: State, notes: seq<Notification>, now: int)
    requires s.turn.Some? && s.turn.value.settlement.completed
    ensures ReplayAll(s, notes, now).turn.value.settlement.completed
    decreases |notes|
  {
    if notes != [] {
      ReplayStaysSettled(ReplayOne(s, notes[0], now), notes[1..], now);
    }
  }

  lemma SettledActivates(s: State, id: Option<Id>, now: int)
    requires s.turn.Some? && (s.turn.value.settlement.conflictReported ==> s.turn.value.settlement.completed)
    requires id.Some? && (s.nativeActive.None? || s.nativeActive == id)
    ensures var r := Settled(s, id, now);
      !r.turn.value.settlement.completed ==>
        !s.turn.value.settlement.completed && r.nativeActive == id && r.turn.value.identity.nativeId == id
  {
    var b := Bound(s, id);
    var s1 := SettleAfterResponse(b);
    if !s.turn.value.settlement.completed {
      AfterResponseKeepsActive(b);
    }
    SettlingKeepsAcceptance(b);
    var s2 := WithTurn(s1, s1.turn.value.(buffers := s1.turn.value.buffers.(notes := [])));
    if s1.turn.value.settlement.completed {
      ReplayStaysSettled(s2, s1.turn.value.buffers.notes, now);
    } else {
      ReplayStaysActive(s2, s1.turn.value.buffers.notes, now);
    }
  }

  lemma PendingKeepsActive(s: State, pending: seq<NativeTurn>, now: int)
    requires s.turn.Some? && (s.turn.value.settlement.conflictReported ==> s.turn.value.settlement.completed)
    ensures SameActive(s, SettlePending(s, pending, now))
  {
    var exact := ExactMatches(pending, s.turn.value.clientId);
    var mine := NativeMatches(pending, s.turn.value.identity.nativeId);
    if |exact| == 1 {
      CompleteKeepsActive(s, exact[0], Some(Exact(exact[0], s.turn.value.clientId)[0]));
    } else if |mine| == 1 {
      CompleteKeepsActive(s, mine[0], None);
    }
    ConflictKeepsActive(s, ManyMatches);
    ScanKeepsActive(s, false, now);
    ScanKeepsActive(s, true, now);
  }

  lemma CompleteKeepsActive(s: State, native: NativeTurn, at: Option<nat>)
    requires s.turn.Some?
    ensures SameActive(s, CompleteFromNative(s, native, at))
  {
  }

  lemma ConflictKeepsActive(s: State, reason: Reason)
    requires s.turn.Some? && (s.turn.value.settlement.conflictReported ==> s.turn.value.settlement.completed)
    ensures SameActive(s, ReportConflict(s, reason))
  {
  }

  /** And where no other one is active, the native turn that the response names is,
      from then on until it is settled. */
  lemma {:induction false} ResponseActivates(s: State, id: Option<Id>, now: int)
    requires Shaped(s) && s.point.AwaitRoot? && !s.turn.value.settlement.completed
    requires var named := if id.Some? then id else s.turn.value.identity.nativeId;
      named.Some? && (s.nativeActive.None? || s.nativeActive == named)
    ensures var named := if id.Some? then id else s.turn.value.identity.nativeId;
      var r := Next(s, RootResponse(id, now));
      r.turn.Some? && (!r.turn.value.settlement.completed ==> r.nativeActive == named)
  {
    var named := if id.Some? then id else s.turn.value.identity.nativeId;
    if !ResponseContradicts(s.turn.value, named) {
      AgreedResponseActivates(s, named, now);
    }
  }

  lemma AgreedResponseActivates(s: State, named: Option<Id>, now: int)
    requires Shaped(s) && s.point.AwaitRoot? && !ResponseContradicts(s.turn.value, named)
    requires named.Some? && (s.nativeActive.None? || s.nativeActive == named)
    ensures var m := SettlePending(Settled(s, named, now), s.turn.value.buffers.completions, now);
      && m.turn.Some? && (!m.turn.value.settlement.completed ==> m.nativeActive == named)
  {
    SettledActivates(s, named, now);
    SettledKept(s, named, now);
    PendingKeepsActive(Settled(s, named, now), s.turn.value.buffers.completions, now);
  }

  // ---------------------------------------------------------------------------
  // A turn that a lookup settles is over
  // ---------------------------------------------------------------------------

  /** The lookup ends with this record of the turn. */
  predicate FoundIn(t: Turn, history: seq<NativeTurn>, native: NativeTurn) {
    match t.settlement.scan
    case NoScan => false
    case SingleScan(_) => !Repeats(history, t.clientId) && SingleMatches(history, t.clientId) == [native]
    case GroupScan => GroupMatches(history, SentIds(t.group.members)) == [native]
  }

  /** Neither native turn is active any more, and any other one that was still is. */
  predicate Releases(s: State, r: State, over: Option<Id>, other: Option<Id>) {
    && (r.nativeActive.Some? ==> r.nativeActive != over && r.nativeActive != other)
    && (s.nativeActive != over && s.nativeActive != other ==> r.nativeActive == s.nativeActive)
  }

  /** A lookup that finds the turn leaves its native turn inactive, so nothing waits
      for a turn that is over: neither the one it was found in, nor, for a group, the
      one it was proven to have. Another native turn stays active. */
  lemma LookupReleases(s: State, history: seq<NativeTurn>, now: int, native: NativeTurn)
    requires Shaped(s) && s.turn.Some? && !s.turn.value.settlement.completed
    requires FoundIn(s.turn.value, history, native) && native.id.Some?
    ensures var r := OnHistory(s, history, now);
      && r.turn.Some? && r.turn.value.settlement.completed
      && Releases(s, r, native.id, if s.turn.value.settlement.scan.GroupScan? then s.turn.value.identity.canonical else native.id)
  {
    match s.turn.value.settlement.scan
    case SingleScan(keep) =>
      SingleMatchReleases(s, history, keep, now, native);
      assert OnHistory(s, history, now) == OnSingleScan(s, history, keep, now);
    case GroupScan =>
      GroupMatchReleases(s, history, native);
      assert OnHistory(s, history, now) == OnGroupScan(s, history);
  }

  lemma SingleMatchReleases(s: State, history: seq<NativeTurn>, keep: bool, now: int, native: NativeTurn)
    requires s.turn.Some? && !s.turn.value.settlement.completed && native.id.Some?
    requires !Repeats(history, s.turn.value.clientId) && SingleMatches(history, s.turn.value.clientId) == [native]
    ensures var r := OnSingleScan(s, history, keep, now);
      r.turn.Some? && r.turn.value.settlement.completed && Releases(s, r, native.id, native.id)
  {
    assert Terminal(SingleMatches(history, s.turn.value.clientId)[0]);
  }

  lemma GroupMatchReleases(s: State, history: seq<NativeTurn>, native: NativeTurn)
    requires s.turn.Some? && !s.turn.value.settlement.completed && native.id.Some?
    requires GroupMatches(history, SentIds(s.turn.value.group.members)) == [native]
    ensures var r := OnGroupScan(s, history);
      r.turn.Some? && r.turn.value.settlement.completed && Releases(s, r, native.id, s.turn.value.identity.canonical)
  {
  }

  /** A lookup that gives the turn up leaves the native turn it was known by inactive. */
  lemma GivingUpReleases(s: State, step: Step)
    requires Shaped(s) && s.turn.Some? && !s.turn.value.settlement.completed && s.turn.value.identity.nativeId.Some?
    requires step.HistoryScanned? || step.HistoryFailed?
    requires Next(s, step).turn.value.texts.final.Conflict? && Next(s, step).turn.value.settlement.completed
    ensures Releases(s, Next(s, step), s.turn.value.identity.nativeId, s.turn.value.identity.nativeId)
  {
    match step
    case HistoryFailed =>
    case HistoryScanned(history, now) => ScanGivesUp(s, history, now);
  }

  lemma ConflictReleases(s: State, reason: Reason)
    requires s.turn.Some? && !s.turn.value.settlement.conflictReported && s.turn.value.identity.nativeId.Some?
    ensures Releases(s, ReportConflict(s, reason), s.turn.value.identity.nativeId, s.turn.value.identity.nativeId)
  {
  }

  lemma RebuiltIsNoConflict(native: NativeTurn, index: nat)
    ensures !Rebuild(native, index).Conflict?
  {
  }

  lemma ScanGivesUp(s: State, history: seq<NativeTurn>, now: int)
    requires Shaped(s) && s.turn.Some? && !s.turn.value.settlement.completed && s.turn.value.identity.nativeId.Some?
    requires var r := OnHistory(s, history, now); r.turn.value.texts.final.Conflict? && r.turn.value.settlement.completed
    ensures Releases(s, OnHistory(s, history, now), s.turn.value.identity.nativeId, s.turn.value.identity.nativeId)
  {
    var t := s.turn.value;
    match t.settlement.scan
    case SingleScan(keep) =>
      var matches := SingleMatches(history, t.clientId);
      if !Repeats(history, t.clientId) && |matches| == 1 {
        RebuiltIsNoConflict(matches[0], Exact(matches[0], t.clientId)[0]);
      }
      ConflictReleases(s, ClientIdRepeated);
      ConflictReleases(s, ManyMatches);
      ConflictReleases(s, NoMatch);
      ConflictReleases(s, OwnTurnTerminated);
      ConflictReleases(s, DeadlineReached);
    case GroupScan =>
      var ids := SentIds(t.group.members);
      var matches := GroupMatches(history, ids);
      if |matches| == 1 {
        RebuiltIsNoConflict(matches[0], VerifyGroup(ids, matches[0]).index);
      } else {
        ConflictReleases(s, if |matches| == 0 then NoMatch else ManyMatches);
      }
  }
}
