/**
 How a turn of the ordered-steer driver settles: a buffered completion is never
 stranded behind an RPC, history lookups end, a grown group's answer comes from
 after its last member, and keep-pending waits for real silence.
 */
module RunnerSettlement {
  import opened Options
  import opened GroupIdentity
  import opened RunnerSteps
  import opened RunnerInvariant
  import opened RunnerTheorems
  import opened RunnerBarrier

  // ---------------------------------------------------------------------------
  // No completion is stranded
  // ---------------------------------------------------------------------------

  /** The turn's completion was seen, but neither a steer reply, nor the root
      response, nor a lookup is going to settle it. */
  predicate Stranded(s: State) {
    !s.fenced && s.turn.Some? && StrandedTurn(s.turn.value)
  }

  predicate StrandedTurn(t: Turn) {
    && !t.settlement.completed && t.settlement.completionSeen
    && !t.group.steerInFlight && !t.request.pending && t.settlement.scan == NoScan
  }

  /** The root response ends the wait of a single root whose buffered completion
      was taken as the proof of an id its own record does not carry, and nothing
      else that was buffered settles it or starts a lookup. */
  predicate StrandsCompletion(s: State, step: Step) {
    && step.RootResponse? && !s.fenced && s.point.AwaitRoot? && s.turn.Some?
    && var t := s.turn.value;
       var bound := BoundTurn(t, ResponseId(s, step.id));
    && !ResponseContradicts(t, ResponseId(s, step.id))
    && !t.settlement.completed && t.settlement.completionSeen && t.settlement.terminal.Some?
    && t.settlement.terminal.value.id != t.identity.canonical
    && |t.group.members| == 1 && !t.group.steerInFlight && t.settlement.scan == NoScan
    && !PendingSettles(bound) && !PendingLooksUp(bound)
  }

  lemma KeptIsNotStranded(s: State, r: State)
    requires s.turn.Some? && KeepsAccount(s, r) && (s.fenced ==> r.fenced) && !Stranded(s)
    ensures !Stranded(r)
  {
  }

  lemma BufferedIsOwned(s: State)
    requires s.turn.Some? && s.turn.value.settlement.terminal.Some?
    requires s.turn.value.settlement.conflictReported ==> s.turn.value.settlement.completed
    ensures SettleBuffered(s).turn.value.settlement.completed || SettleBuffered(s).turn.value.settlement.scan != NoScan
  {
  }

  lemma GroupCompletionIsOwned(s: State, id: Option<Id>, native: NativeTurn)
    requires Shaped(s) && s.turn.Some?
    ensures GroupCompleted(s, id, native).turn.Some? && !Stranded(GroupCompleted(s, id, native))
  {
  }

  lemma SingleCompletionIsOwned(s: State, id: Option<Id>, native: NativeTurn)
    requires s.turn.Some? && !Stranded(s)
    ensures !Stranded(SingleCompleted(s, id, native))
  {
    if !Upgrades(s.turn.value, id, native) {
      KeptIsNotStranded(s, SingleCompleted(s, id, native));
    }
  }

  lemma CompletionIsOwned(s: State, id: Option<Id>, native: NativeTurn)
    requires Shaped(s) && !Stranded(s)
    ensures !Stranded(OnCompleted(s, id, native))
  {
    var s1 := s.(nativeActive := Released(s, id));
    ActiveKept(s, Released(s, id));
    if s1.turn.Some? {
      if InGroupMode(s1.turn.value) {
        GroupCompletionIsOwned(s1, id, native);
      } else {
        SingleCompletionIsOwned(s1, id, native);
      }
    }
  }

  lemma SteerReplyIsOwned(s: State, reply: SteerReply)
    requires Shaped(s) && s.steer.Some? && !Stranded(s)
    ensures !Stranded(OnSteerReply(s, reply))
  {
    match reply
    case SteerUnknown =>
    case SteerRejected =>
      if SteerIsLive(s) {
        var s1 := SteerOver(s);
        var s2 := WithTurn(s1, s1.turn.value.(group := s1.turn.value.group.(closed := true)));
        if s2.turn.value.settlement.completionSeen && s2.turn.value.settlement.terminal.Some? {
          BufferedIsOwned(s2);
        }
      }
    case SteerTurn(turnId) =>
      if SteerMatches(s, turnId) {
        AcceptedIsOwned(s);
      }
  }

  lemma AcceptedIsOwned(s: State)
    requires Shaped(s) && s.steer.Some? && s.queue != [] && !Stranded(s)
    ensures SteerIsLive(s) ==> CanResume(SteerAccepted(s)) ==> !Stranded(ResumeBuffered(SteerAccepted(s)))
    ensures !SteerIsLive(s) || !CanResume(SteerAccepted(s)) ==> !Stranded(TryAdmit(SteerAccepted(s)))
  {
    SteerAcceptedKept(s);
    var s1 := SteerAccepted(s);
    if SteerIsLive(s) && CanResume(s1) {
      BufferedIsOwned(s1);
    }
  }

  lemma ConcludedKeepsAccount(s: State, pending: seq<NativeTurn>, now: int)
    requires s.turn.Some?
    ensures KeepsAccount(s, Concluded(s, pending, now))
  {
    AccountTransitive(s, SettlePending(s, pending, now), TryAdmit(SettlePending(s, pending, now)));
  }

  /** What binding leaves without an owner. */
  lemma BindingStrandsExactly(s: State, id: Option<Id>)
    requires Shaped(s) && !s.fenced && s.point.AwaitRoot? && !Stranded(s) && !ResponseContradicts(s.turn.value, id)
    ensures var t := s.turn.value; var r := SettleAfterResponse(Bound(s, id));
      && (Stranded(r) ==> r == Bound(s, id))
      && (Stranded(r) <==>
            && !t.settlement.completed && t.settlement.completionSeen && t.settlement.terminal.value.id != t.identity.canonical
            && |t.group.members| == 1 && !t.group.steerInFlight && t.settlement.scan == NoScan)
  {
    BoundKept(s, id);
    var b := Bound(s, id);
    if CanResume(b) {
      BufferedIsOwned(b);
      KeptIsNotStranded(ResumeBuffered(b), SettleAfterResponse(b));
    }
  }

  lemma SettledLeavesStake(s: State, id: Option<Id>, now: int)
    requires s.turn.Some? && Agreed(Bound(s, id)) && s.turn.value.group.closed && SettleAfterResponse(Bound(s, id)) == Bound(s, id)
    ensures LeavesStake(Bound(s, id), Settled(s, id, now))
    ensures Steering(Settled(s, id, now)) <==> Steering(s)
  {
    NotesSteerExactly(Bound(s, id), now);
  }

  lemma StrandedConcludesExactly(s: State, held: Turn, now: int)
    requires Stranded(s) && s.turn.value.group.closed && !s.turn.value.settlement.conflictReported
    requires SameStake(held, s.turn.value) && ExactMatches(held.buffers.completions, held.clientId) == []
    ensures Stranded(Concluded(s, held.buffers.completions, now)) <==> !PendingSettles(held) && !PendingLooksUp(held)
  {
    PendingDecides(s, held, now);
    PendingKeepsGroup(s, held.buffers.completions, now);
    PendingNeverFences(s, held.buffers.completions, now);
  }

  lemma PendingKeepsGroup(s: State, pending: seq<NativeTurn>, now: int)
    requires s.turn.Some?
    ensures SettlePending(s, pending, now).turn.value.group == s.turn.value.group
  {
    var t := s.turn.value;
    var exact := ExactMatches(pending, t.clientId);
    var mine := NativeMatches(pending, t.identity.nativeId);
    if |exact| == 1 {
      CompleteKeepsMembers(s, exact[0], Some(Exact(exact[0], t.clientId)[0]));
    } else if |exact| > 1 || |mine| > 1 {
      ConflictKeepsMembers(s, ManyMatches);
    } else if t.request.kind == StartRequest && |mine| == 1 {
      CompleteKeepsMembers(s, mine[0], None);
    } else {
      ScanKeepsMembers(s, false, now);
      ScanKeepsMembers(s, true, now);
    }
  }

  lemma RootResponseStrandsExactly(s: State, id: Option<Id>, now: int)
    requires Shaped(s) && !s.fenced && s.point.AwaitRoot? && !Stranded(s)
    ensures Stranded(OnRootResponse(s, id, now)) <==> StrandsCompletion(s, RootResponse(id, now))
  {
    var responseId := ResponseId(s, id);
    if !ResponseContradicts(s.turn.value, responseId) {
      BindingStrandsExactly(s, responseId);
      AgreedResponseStrandsExactly(s, responseId, now);
    }
  }

  lemma AgreedResponseStrandsExactly(s: State, id: Option<Id>, now: int)
    requires Shaped(s) && !s.fenced && s.point.AwaitRoot? && !ResponseContradicts(s.turn.value, id)
    requires var r := SettleAfterResponse(Bound(s, id)); Stranded(r) ==> r == Bound(s, id)
    ensures var bound := BoundTurn(s.turn.value, id);
      Stranded(Concluded(Settled(s, id, now), bound.buffers.completions, now))
      <==> Stranded(SettleAfterResponse(Bound(s, id))) && !PendingSettles(bound) && !PendingLooksUp(bound)
  {
    var pending := s.turn.value.buffers.completions;
    var s1 := SettleAfterResponse(Bound(s, id));
    if Stranded(s1) {
      BoundAgrees(s, id);
      SettledLeavesStake(s, id, now);
      StrandedConcludesExactly(Settled(s, id, now), BoundTurn(s.turn.value, id), now);
    } else {
      SettledKeepsAccount(s, id, now);
      ConcludedKeepsAccount(Settled(s, id, now), pending, now);
      AccountTransitive(s1, Settled(s, id, now), Concluded(Settled(s, id, now), pending, now));
      KeptIsNotStranded(s1, Concluded(Settled(s, id, now), pending, now));
    }
  }

  /** A completion is stranded by exactly these steps. */
  lemma {:induction false} StrandsExactly(s: State, step: Step)
    requires Shaped(s) && !Stranded(s)
    ensures Stranded(Next(s, step)) <==> StrandsCompletion(s, step)
  {
    if step.RootResponse? {
      if Enabled(s, step) && !s.fenced {
        RootResponseStrandsExactly(s, step.id, step.now);
      }
    } else {
      OtherStepsStrandNothing(s, step);
    }
  }

  lemma {:induction false} OtherStepsStrandNothing(s: State, step: Step)
    requires Shaped(s) && !Stranded(s) && !step.RootResponse?
    ensures !Stranded(Next(s, step))
  {
    if Enabled(s, step) && !s.fenced {
      match step
      case SteerReplied(reply) => SteerReplyIsOwned(s, reply);
      case TurnCompleted(id, native) => CompletionIsOwned(s, id, native);
      case Launch => LaunchIsOwned(s);
      case RootError(failure) => ErrorIsOwned(s, failure);
      case HistoryScanned(history, now) => LookupIsOwned(s, history, now);
      case _ => QuietStepIsOwned(s, step);
    }
  }

  lemma QuietStepIsOwned(s: State, step: Step)
    requires !Stranded(s) && Enabled(s, step)
    requires step.Enqueue? || step.TurnStarted? || step.Progress? || step.HistoryFailed? || step.Finalize?
          || step.AfterTurn? || step.IdleTimerFired? || step.Reauthenticated?
    ensures !Stranded(Next(s, step))
  {
    if step.Finalize? {
      assert Next(s, step).turn.None?;
    } else if s.turn.Some? {
      OtherStepsKeepAccount(s, step);
      KeptIsNotStranded(s, Next(s, step));
    }
  }

  lemma OtherStepsKeepAccount(s: State, step: Step)
    requires s.turn.Some? && Enabled(s, step)
    requires step.Enqueue? || step.TurnStarted? || step.Progress? || step.HistoryFailed?
          || step.AfterTurn? || step.IdleTimerFired? || step.Reauthenticated?
    ensures KeepsAccount(s, Next(s, step)) && (s.fenced ==> Next(s, step).fenced)
  {
  }

  lemma LaunchIsOwned(s: State)
    requires s.point.Launching?
    ensures !Stranded(OnLaunch(s))
  {
  }

  lemma ErrorIsOwned(s: State, failure: RpcFailure)
    requires s.point.AwaitRoot? && s.turn.Some? && !Stranded(s)
    ensures !Stranded(OnRootError(s, failure))
  {
  }

  lemma LookupIsOwned(s: State, history: seq<NativeTurn>, now: int)
    requires s.turn.Some? && !Stranded(s)
    ensures !Stranded(OnHistory(s, history, now))
  {
  }

  /** Over every run without such a step: a completion that was seen is settled,
      or waits for a steer reply, for the root response or for a lookup. */
  lemma {:induction false} NoCompletionStranded(config: Config, steps: seq<Step>)
    requires forall k :: 0 <= k < |steps| ==> !StrandsCompletion(Run(Init(config), steps[..k]), steps[k])
    ensures !Stranded(Run(Init(config), steps))
  {
    if steps != [] {
      var n := |steps| - 1;
      assert forall k :: 0 <= k < n ==> steps[..n][..k] == steps[..k];
      NoCompletionStranded(config, steps[..n]);
      RunShaped(config, steps[..n]);
      StrandsExactly(Run(Init(config), steps[..n]), steps[n]);
    }
  }

  /** A stranded completion stays stranded, whatever arrives, until another
      completion comes or a fence is raised. */
  lemma {:induction false} StrandedStays(s: State, step: Step)
    requires Shaped(s) && Stranded(s) && s.point.AwaitDone?
    requires !step.TurnCompleted? && !Next(s, step).fenced
    ensures Stranded(Next(s, step)) && Next(s, step).point.AwaitDone?
  {
    if Enabled(s, step) {
      match step
      case TurnStarted(id, native) => StartLeavesStranded(s, id, native);
      case SteerReplied(reply) => ReplyLeavesStranded(s, reply);
      case _ =>
    }
  }

  lemma StartLeavesStranded(s: State, id: Option<Id>, native: NativeTurn)
    requires Shaped(s) && Stranded(s) && !OnStarted(s, id, native, false).fenced
    ensures var r := OnStarted(s, id, native, false); Stranded(r) && r.point == s.point
  {
    StartedKept(s, id, native, false);
    if id.Some? {
      TrackedLeavesStranded(s.(nativeActive := id), id.value, native);
    }
  }

  lemma TrackedLeavesStranded(s: State, id: Id, native: NativeTurn)
    requires Stranded(s) && s.turn.value.group.closed && !Tracked(s, id, native).fenced
    ensures Stranded(Tracked(s, id, native))
  {
    var (s1, proceed) := ProveExact(s, id, ExactStarted);
    TrackLeavesStranded(s, id, native);
    if |Exact(native, s.turn.value.clientId)| == 1 && proceed {
      TrackLeavesStranded(WithTurn(s1, OpenStarted(s1.turn.value, id)), id, native);
    }
  }

  lemma TrackLeavesStranded(s: State, id: Id, native: NativeTurn)
    requires Stranded(s) && s.turn.value.group.closed
    ensures Stranded(TrackStarted(s, id, native))
  {
  }

  lemma ReplyLeavesStranded(s: State, reply: SteerReply)
    requires Shaped(s) && Stranded(s) && s.steer.Some? && !OnSteerReply(s, reply).fenced
    ensures Stranded(OnSteerReply(s, reply)) && OnSteerReply(s, reply).point == s.point
  {
    assert !SteerIsLive(s);
  }

  /** A completion under the proven id is held back. */
  predicate HeldBack(t: Turn, native: NativeTurn) {
    !t.settlement.completed && t.settlement.terminal == Some(native) && native.id.Some? && native.id == t.identity.canonical
  }

  lemma ReplyKeepsTerminal(s: State, reply: SteerReply)
    requires s.steer.Some? && Unsettled(s) && OnSteerReply(s, reply).turn.Some? && !OnSteerReply(s, reply).turn.value.settlement.completed
    ensures OnSteerReply(s, reply).turn.value.settlement.terminal == s.turn.value.settlement.terminal
  {
    match reply
    case SteerUnknown =>
    case SteerRejected => RejectionKeepsTerminal(s);
    case SteerTurn(turnId) =>
      if SteerMatches(s, turnId) {
        AcceptanceKeepsTerminal(s);
      }
  }

  lemma RejectionKeepsTerminal(s: State)
    requires s.steer.Some? && Unsettled(s) && !OnSteerReply(s, SteerRejected).turn.value.settlement.completed
    ensures OnSteerReply(s, SteerRejected).turn.value.settlement.terminal == s.turn.value.settlement.terminal
  {
  }

  lemma AcceptanceKeepsTerminal(s: State)
    requires s.steer.Some? && Unsettled(s) && s.queue != []
    ensures TryAdmit(SteerAccepted(s)).turn.value.settlement.terminal == s.turn.value.settlement.terminal
    ensures SteerIsLive(s) && !ResumeBuffered(SteerAccepted(s)).turn.value.settlement.completed ==>
              ResumeBuffered(SteerAccepted(s)).turn.value.settlement.terminal == s.turn.value.settlement.terminal
  {
    AdmissionKeepsText(SteerAccepted(s));
  }

  lemma ResponseKeepsTerminal(s: State, id: Option<Id>, now: int)
    requires s.point.AwaitRoot? && Unsettled(s) && !OnRootResponse(s, id, now).turn.value.settlement.completed
    ensures OnRootResponse(s, id, now).turn.value.settlement.terminal == s.turn.value.settlement.terminal
  {
    var responseId := ResponseId(s, id);
    if !ResponseContradicts(s.turn.value, responseId) {
      var pending := s.turn.value.buffers.completions;
      var b := Bound(s, responseId);
      SettledKeepsAccount(s, responseId, now);
      ConcludedKeepsAccount(Settled(s, responseId, now), pending, now);
      AccountTransitive(SettleAfterResponse(b), Settled(s, responseId, now), Concluded(Settled(s, responseId, now), pending, now));
      AccountTransitive(b, SettleAfterResponse(b), Concluded(Settled(s, responseId, now), pending, now));
    }
  }

  lemma AccountKeepsTerminal(s: State, r: State)
    requires Unsettled(s) && Unsettled(r) && KeepsAccount(s, r)
    ensures r.turn.value.settlement.terminal == s.turn.value.settlement.terminal
  {
  }

  lemma ErrorKeepsTerminal(s: State, failure: RpcFailure)
    requires s.point.AwaitRoot? && Unsettled(s) && Unsettled(OnRootError(s, failure))
    ensures OnRootError(s, failure).turn.value.settlement.terminal == s.turn.value.settlement.terminal
  {
  }

  lemma LookupKeepsTerminal(s: State, history: seq<NativeTurn>, now: int)
    requires Unsettled(s) && !OnHistory(s, history, now).turn.value.settlement.completed
    ensures OnHistory(s, history, now).turn.value.settlement.terminal == s.turn.value.settlement.terminal
  {
  }

  lemma ForeignCompletionKeepsTerminal(s: State, id: Option<Id>, native: NativeTurn, held: NativeTurn)
    requires Unsettled(s) && HeldBack(s.turn.value, held) && id != s.turn.value.identity.canonical
    requires OnCompleted(s, id, native).turn.Some? && !OnCompleted(s, id, native).turn.value.settlement.completed
    ensures OnCompleted(s, id, native).turn.value.settlement.terminal == Some(held)
  {
    var s1 := s.(nativeActive := Released(s, id));
    if InGroupMode(s1.turn.value) {
      assert BufferCompletion(s1.turn.value, id, native).settlement.terminal == Some(held);
    } else if !Upgrades(s1.turn.value, id, native) {
      assert KeepsAccount(s1, SingleCompleted(s1, id, native));
    }
  }

  /** Whatever arrives, a completion under the proven id that is held back is not
      overwritten by that of another native turn: it is there when the turn's RPCs
      are answered. */
  lemma {:induction false} HeldCompletionStays(s: State, step: Step, held: NativeTurn)
    requires Shaped(s) && Unsettled(s) && HeldBack(s.turn.value, held)
    requires step.TurnCompleted? ==> step.id != s.turn.value.identity.canonical
    requires Unsettled(Next(s, step)) && Next(s, step).turn.value.epoch == s.turn.value.epoch
    ensures Next(s, step).turn.value.settlement.terminal == Some(held)
  {
    if Enabled(s, step) {
      match step
      case RootResponse(id, now) => ResponseKeepsTerminal(s, id, now);
      case SteerReplied(reply) => ReplyKeepsTerminal(s, reply);
      case TurnCompleted(id, native) => ForeignCompletionKeepsTerminal(s, id, native, held);
      case HistoryScanned(history, now) => LookupKeepsTerminal(s, history, now);
      case RootError(failure) => ErrorKeepsTerminal(s, failure);
      case Launch =>
      case Finalize =>
      case _ =>
        OtherStepsKeepAccount(s, step);
        AccountKeepsTerminal(s, Next(s, step));
    }
  }

  predicate Closed(s: State) {
    s.turn.Some? && s.turn.value.settlement.completed
  }

  /** With its RPCs answered, an unsettled turn whose completion was seen is
      owned by a history lookup, and a group lookup or a failed lookup settles
      it whatever the history holds. */
  lemma {:induction false} LookupSettles(s: State, history: seq<NativeTurn>, now: int)
    requires Shaped(s) && !Stranded(s) && !s.fenced && s.turn.Some?
    requires s.turn.value.settlement.completionSeen && !s.turn.value.settlement.completed
    requires !s.turn.value.group.steerInFlight && !s.turn.value.request.pending
    ensures s.turn.value.settlement.scan != NoScan
    ensures Closed(Next(s, HistoryFailed))
    ensures s.turn.value.settlement.scan.GroupScan? || s.turn.value.settlement.scan == SingleScan(false)
        ==> Closed(Next(s, HistoryScanned(history, now)))
  {
    if s.turn.value.settlement.scan == SingleScan(false) {
      SingleLookupSettles(s, history, now);
    }
  }

  lemma SingleLookupSettles(s: State, history: seq<NativeTurn>, now: int)
    requires Shaped(s) && s.turn.Some? && !s.turn.value.settlement.completed
    ensures OnSingleScan(s, history, false, now).turn.value.settlement.completed
  {
    var matches := SingleMatches(history, s.turn.value.clientId);
    if Repeats(history, s.turn.value.clientId) {
      ConflictDecides(s, ClientIdRepeated);
    } else if |matches| == 1 {
      CompletionDecides(s, matches[0], Some(Exact(matches[0], s.turn.value.clientId)[0]));
    } else {
      ConflictDecides(s, ManyMatches);
      ConflictDecides(s, NoMatch);
    }
  }

  // ---------------------------------------------------------------------------
  // A grown group's answer
  // ---------------------------------------------------------------------------

  /** The settled text of group `u`, whose streamed text was `streamed`: an
      identity error, the tail of the one terminal turn that holds the whole
      group in order, or the streamed text when that turn has no full items. */
  predicate GroupAnswer(streamed: Texts, u: Turn) {
    || u.texts.final.Conflict?
    || (u.settlement.terminal.Some? && AnswersGroup(streamed, u, u.settlement.terminal.value))
  }

  predicate AnswersGroup(streamed: Texts, u: Turn, native: NativeTurn) {
    var verdict := VerifyGroup(SentIds(u.group.members), native);
    || (verdict.Last? && u.texts == Texts(Rebuild(native, verdict.index), ""))
    || (verdict.Unchecked? && u.texts == streamed)
  }

  /** `native` is the group's own turn: the only one in history that holds the
      whole group, or the one that was reported, now or while an RPC was
      outstanding, under the proven canonical id. */
  predicate IdentifiesGroup(t: Turn, step: Step, native: NativeTurn) {
    match step
    case HistoryScanned(history, _) => GroupMatches(history, SentIds(t.group.members)) == [native]
    case TurnCompleted(id, reported) => native == reported && id.Some? && id == t.identity.canonical
    case SteerReplied(_) => t.settlement.terminal == Some(native) && native.id.Some? && native.id == t.identity.canonical
    case _ => false
  }

  /** The settled text of group `u` is an identity error, or the answer of the
      group's own turn. */
  predicate Attributed(t: Turn, step: Step, u: Turn) {
    && GroupAnswer(t.texts, u)
    && (u.texts.final.Conflict? || IdentifiesGroup(t, step, u.settlement.terminal.value))
  }

  /** Unsettled, with no identity error reported. */
  predicate Answerless(s: State) {
    Unsettled(s) && !s.turn.value.settlement.conflictReported
  }

  lemma SteeredAnswersGroup(s: State, native: NativeTurn)
    requires Answerless(s)
    ensures GroupAnswer(s.turn.value.texts, SettleSteered(s, native).turn.value)
  {
  }

  lemma BufferedAnswersGroup(s: State)
    requires Answerless(s) && s.turn.value.settlement.terminal.Some?
    requires SettleBuffered(s).turn.value.settlement.completed
    ensures GroupAnswer(s.turn.value.texts, SettleBuffered(s).turn.value)
  {
    SteeredAnswersGroup(s, s.turn.value.settlement.terminal.value);
  }

  lemma SettlingIdentifies(s: State, native: NativeTurn)
    requires Answerless(s)
    ensures var u := SettleSteered(s, native).turn.value;
      u.texts.final.Conflict? || u.settlement.terminal == Some(native)
  {
  }

  /** A buffered turn settles the group only if it carries the canonical id. */
  lemma BufferedIdentifies(s: State)
    requires Answerless(s) && s.turn.value.settlement.terminal.Some?
    requires SettleBuffered(s).turn.value.settlement.completed
    ensures var t, u := s.turn.value, SettleBuffered(s).turn.value;
      && t.settlement.terminal.value.id.Some? && t.settlement.terminal.value.id == t.identity.canonical
      && (u.texts.final.Conflict? || u.settlement.terminal == t.settlement.terminal)
  {
    SettlingIdentifies(s, s.turn.value.settlement.terminal.value);
  }

  lemma SteerReplyAnswersGroup(s: State, reply: SteerReply)
    requires Shaped(s) && !s.fenced && s.steer.Some? && Unsettled(s)
    requires var r := OnSteerReply(s, reply); !r.fenced && r.turn.Some? && r.turn.value.settlement.completed
    ensures Attributed(s.turn.value, SteerReplied(reply), OnSteerReply(s, reply).turn.value)
  {
    match reply
    case SteerUnknown =>
    case SteerRejected => RejectionAnswersGroup(s);
    case SteerTurn(turnId) => AcceptanceAnswersGroup(s, turnId);
  }

  /** Settling what was buffered, after a reply that touched neither its text, nor
      its identity, nor what was buffered. */
  lemma BufferedAttributes(t: Turn, s: State, reply: SteerReply)
    requires Answerless(s) && s.turn.value.settlement.terminal.Some? && SettleBuffered(s).turn.value.settlement.completed
    requires s.turn.value.texts == t.texts && s.turn.value.identity == t.identity
    requires s.turn.value.settlement.terminal == t.settlement.terminal
    ensures Attributed(t, SteerReplied(reply), SettleBuffered(s).turn.value)
  {
    BufferedAnswersGroup(s);
    BufferedIdentifies(s);
  }

  lemma RejectionAnswersGroup(s: State)
    requires Shaped(s) && !s.fenced && s.steer.Some? && Unsettled(s)
    requires var r := OnSteerReply(s, SteerRejected); !r.fenced && r.turn.Some? && r.turn.value.settlement.completed
    ensures Attributed(s.turn.value, SteerReplied(SteerRejected), OnSteerReply(s, SteerRejected).turn.value)
  {
    var s1 := SteerOver(s);
    var s2 := WithTurn(s1, s1.turn.value.(group := s1.turn.value.group.(closed := true)));
    BufferedAttributes(s.turn.value, s2, SteerRejected);
  }

  lemma AcceptanceAnswersGroup(s: State, turnId: Option<Id>)
    requires Shaped(s) && !s.fenced && s.steer.Some? && Unsettled(s)
    requires var r := OnSteerReply(s, SteerTurn(turnId)); !r.fenced && r.turn.Some? && r.turn.value.settlement.completed
    ensures Attributed(s.turn.value, SteerReplied(SteerTurn(turnId)), OnSteerReply(s, SteerTurn(turnId)).turn.value)
  {
    assert SteerMatches(s, turnId);
    var s1 := SteerAccepted(s);
    AdmissionKeepsText(s1);
    BufferedAttributes(s.turn.value, s1, SteerTurn(turnId));
  }

  lemma GroupLookupAnswersGroup(s: State, history: seq<NativeTurn>, now: int)
    requires Answerless(s)
    ensures Attributed(s.turn.value, HistoryScanned(history, now), OnGroupScan(s, history).turn.value)
  {
    var ids := SentIds(s.turn.value.group.members);
    var matches := GroupMatches(history, ids);
    if |matches| == 1 {
      FromHistoryAnswers(s, matches[0], ids);
      assert matches == [matches[0]];
    } else {
      ConflictAnswersGroup(s, if |matches| == 0 then NoMatch else ManyMatches);
    }
  }

  lemma FromHistoryAnswers(s: State, matched: NativeTurn, ids: seq<Id>)
    requires s.turn.Some? && ids == SentIds(s.turn.value.group.members) && VerifyGroup(ids, matched).Last?
    ensures var u := SettleFromHistory(s, matched, VerifyGroup(ids, matched).index).turn.value;
      GroupAnswer(s.turn.value.texts, u) && u.settlement.terminal == Some(matched)
  {
    var u := SettleFromHistory(s, matched, VerifyGroup(ids, matched).index).turn.value;
    assert u.group.members == s.turn.value.group.members;
  }

  /** A lookup that was started for the root alone finds the root's turn after
      the group has grown. */
  predicate AnswersRootAlone(s: State, step: Step) {
    && step.HistoryScanned? && LookedUp(s) && !Repeats(step.history, s.turn.value.clientId)
    && |SingleMatches(step.history, s.turn.value.clientId)| == 1
  }

  lemma RootLookupAnswers(s: State, history: seq<NativeTurn>, keep: bool, now: int)
    requires Answerless(s)
    ensures var t, u := s.turn.value, OnSingleScan(s, history, keep, now).turn.value;
      var matches := SingleMatches(history, t.clientId);
      if !Repeats(history, t.clientId) && |matches| == 1
      then u.texts.final == Rebuild(matches[0], Exact(matches[0], t.clientId)[0])
      else u.settlement.completed ==> u.texts.final.Conflict?
  {
  }

  predicate SettlesGrownGroup(s: State) {
    !s.fenced && s.turn.Some? && s.turn.value.settlement.completed && |s.turn.value.group.members| > 1
  }

  /** The response settles what the turn was holding back: a completion that was
      reported under the proven id. */
  predicate HoldsCanonical(t: Turn) {
    && t.settlement.completionSeen && !t.group.steerInFlight
    && t.settlement.terminal.Some? && t.settlement.terminal.value.id == t.identity.canonical
  }

  /** The response holds nothing back for the group, and settles it from the one
      completion of the accepted turn that was buffered before. */
  predicate AnswersFromEarly(s: State, step: Step) {
    && step.RootResponse? && s.turn.Some? && !HoldsCanonical(s.turn.value)
    && s.turn.value.request.kind == StartRequest
    && |NativeMatches(s.turn.value.buffers.completions, ResponseId(s, step.id))| == 1
  }

  /** The text the verdict on a canonical turn leaves, over what was streamed. */
  function VerdictText(streamed: Answer, members: seq<Dispatch>, native: NativeTurn): Answer {
    match VerifyGroup(SentIds(members), native)
    case Unchecked => streamed
    case Last(index) => Rebuild(native, index)
    case Mismatch(reason) => Conflict(reason)
  }

  /** An early completion leaves what was streamed, or its error. */
  function EarlyText(streamed: Answer, native: NativeTurn): Answer {
    if native.error.Some? && streamed == Nothing then NativeFailure(native.error.value) else streamed
  }

  /** What a turn, grown or not, is answered with by the root response. */
  function ResponseText(t: Turn, id: Option<Id>): Answer {
    var streamed := Overwritten(t.texts.final, t.buffers.notes, id);
    var mine := NativeMatches(t.buffers.completions, id);
    if HoldsCanonical(t) then
      Overwritten(VerdictText(t.texts.final, t.group.members, t.settlement.terminal.value), t.buffers.notes, id)
    else if |mine| > 1 then Conflict(ManyMatches)
    else if t.request.kind == StartRequest && |mine| == 1 then EarlyText(streamed, mine[0])
    else Conflict(LegacyInput)
  }

  /** Whatever settles a group of two or more, its answer is an identity error or
      that of the group's own turn, except that a lookup for the root alone answers
      it with what followed the root's message, and the root response with
      `ResponseText`. */
  lemma {:induction false} GrownGroupIsAttributed(s: State, step: Step)
    requires Shaped(s) && !s.fenced && Unsettled(s) && SettlesGrownGroup(Next(s, step))
    ensures var t, u := s.turn.value, Next(s, step).turn.value;
      if AnswersRootAlone(s, step)
      then var native := SingleMatches(step.history, t.clientId)[0];
           u.texts.final == Rebuild(native, Exact(native, t.clientId)[0])
      else if step.RootResponse? && (HoldsCanonical(t) || AnswersFromEarly(s, step))
      then u.texts.final == ResponseText(t, ResponseId(s, step.id))
      else Attributed(t, step, u)
  {
    if step.RootResponse? {
      ResponseAnswers(s, step.id, step.now);
    } else {
      OtherStepsAttribute(s, step);
    }
  }

  lemma {:induction false} OtherStepsAttribute(s: State, step: Step)
    requires Shaped(s) && !s.fenced && Unsettled(s) && !step.RootResponse? && SettlesGrownGroup(Next(s, step))
    ensures var t, u := s.turn.value, Next(s, step).turn.value;
      if AnswersRootAlone(s, step)
      then var native := SingleMatches(step.history, t.clientId)[0];
           u.texts.final == Rebuild(native, Exact(native, t.clientId)[0])
      else Attributed(t, step, u)
  {
    match step
    case SteerReplied(reply) => SteerReplyAnswersGroup(s, reply);
    case TurnCompleted(id, native) => CompletionAnswersGroup(s, id, native);
    case HistoryScanned(history, now) => LookupAnswersGroup(s, history, now);
    case TurnStarted(id, native) =>
      if id.Some? {
        TrackedKeepsAnswer(s.(nativeActive := id), id.value, native);
      }
    case Enqueue(line) => EnqueueDoesNotSettle(s, line);
    case HistoryFailed => ConflictAnswersGroup(s, LookupFailed);
    case _ => RemainingStepsDoNotSettle(s, step);
  }

  lemma ConflictAnswersGroup(s: State, reason: Reason)
    requires Answerless(s)
    ensures GroupAnswer(s.turn.value.texts, ReportConflict(s, reason).turn.value)
    ensures ReportConflict(s, reason).turn.value.texts.final.Conflict?
  {
  }

  lemma LookupAnswersGroup(s: State, history: seq<NativeTurn>, now: int)
    requires Answerless(s) && OnHistory(s, history, now).turn.value.settlement.completed
    ensures var t, u := s.turn.value, OnHistory(s, history, now).turn.value;
      if AnswersRootAlone(s, HistoryScanned(history, now))
      then var native := SingleMatches(history, t.clientId)[0];
           u.texts.final == Rebuild(native, Exact(native, t.clientId)[0])
      else Attributed(t, HistoryScanned(history, now), u)
  {
    match s.turn.value.settlement.scan
    case NoScan =>
    case SingleScan(keep) => RootLookupAnswers(s, history, keep, now);
    case GroupScan => GroupLookupAnswersGroup(s, history, now);
  }

  lemma RemainingStepsDoNotSettle(s: State, step: Step)
    requires Shaped(s) && !s.fenced && Unsettled(s)
    requires step.Launch? || step.RootError? || step.Progress? || step.Finalize? || step.AfterTurn? || step.IdleTimerFired? || step.Reauthenticated?
    ensures var r := Next(s, step); r.fenced || r.turn.None? || !r.turn.value.settlement.completed
  {
  }

  lemma EnqueueDoesNotSettle(s: State, line: Line)
    requires s.turn.Some?
    ensures OnEnqueue(s, line).turn.Some?
    ensures OnEnqueue(s, line).turn.value.settlement == s.turn.value.settlement
  {
  }

  lemma CompletionAnswersGroup(s: State, id: Option<Id>, native: NativeTurn)
    requires Shaped(s) && !s.fenced && Unsettled(s) && SettlesGrownGroup(OnCompleted(s, id, native))
    ensures Attributed(s.turn.value, TurnCompleted(id, native), OnCompleted(s, id, native).turn.value)
  {
    var s1 := s.(nativeActive := Released(s, id));
    if InGroupMode(s1.turn.value) {
      GroupCompletionAnswers(s1, id, native);
    } else {
      SingleCompletionKeepsMembers(s1, id, native);
    }
  }

  lemma GroupCompletionAnswers(s: State, id: Option<Id>, native: NativeTurn)
    requires Answerless(s)
    ensures GroupCompleted(s, id, native).turn.Some?
    ensures GroupCompleted(s, id, native).turn.value.settlement.completed
        ==> Attributed(s.turn.value, TurnCompleted(id, native), GroupCompleted(s, id, native).turn.value)
  {
    SteeredAnswersGroup(WithTurn(s, BufferCompletion(s.turn.value, id, native)), native);
    SettlingIdentifies(WithTurn(s, BufferCompletion(s.turn.value, id, native)), native);
  }

  lemma SingleCompletionKeepsMembers(s: State, id: Option<Id>, native: NativeTurn)
    requires s.turn.Some?
    ensures SingleCompleted(s, id, native).turn.Some?
    ensures SingleCompleted(s, id, native).turn.value.group.members == s.turn.value.group.members
  {
    if Upgrades(s.turn.value, id, native) {
      ProofKeepsRequest(s, id.value, ExactCompleted);
    } else {
      var exact := Exact(native, s.turn.value.clientId);
      CompleteKeepsMembers(s, native, if |exact| == 1 then Some(exact[0]) else None);
      ScanKeepsMembers(s, false, 0);
    }
  }

  lemma CompleteKeepsMembers(s: State, native: NativeTurn, at: Option<nat>)
    requires s.turn.Some?
    ensures CompleteFromNative(s, native, at).turn.value.group == s.turn.value.group
  {
  }

  lemma ConflictKeepsMembers(s: State, reason: Reason)
    requires s.turn.Some?
    ensures ReportConflict(s, reason).turn.value.group == s.turn.value.group
  {
  }

  lemma ScanKeepsMembers(s: State, keepPending: bool, now: int)
    requires s.turn.Some?
    ensures StartSingleScan(s, keepPending, now).turn.value.group == s.turn.value.group
  {
  }

  /** The last final text among the buffered notes of that turn. */
  function LastFinalText(notes: seq<Notification>, nativeId: Option<Id>): Option<string> {
    if notes == [] then None
    else
      var later := LastFinalText(notes[1..], nativeId);
      if later.Some? then later
      else if notes[0].ProgressNote? && notes[0].effect.FinalText? && Some(notes[0].id) == nativeId then Some(notes[0].effect.text)
      else None
  }

  function Overwritten(final: Answer, notes: seq<Notification>, nativeId: Option<Id>): Answer {
    var text := LastFinalText(notes, nativeId);
    if text.Some? then AnswerOf(text.value) else final
  }

  /** Replaying buffered notes leaves exactly the last final text among them, if
      there is one, as the turn's answer. */
  lemma {:induction false} ReplaySetsAnswer(s: State, notes: seq<Notification>, now: int)
    requires s.turn.Some? && s.turn.value.request.accepted
    ensures ReplayAll(s, notes, now).turn.value.texts.final
         == Overwritten(s.turn.value.texts.final, notes, s.turn.value.identity.nativeId)
    decreases |notes|
  {
    if notes != [] {
      NoteSetsAnswer(s, notes[0], now);
      ReplaySetsAnswer(ReplayOne(s, notes[0], now), notes[1..], now);
    }
  }

  lemma TrackKeepsAnswer(s: State, id: Id, native: NativeTurn)
    requires s.turn.Some?
    ensures TrackStarted(s, id, native).turn.value.texts == s.turn.value.texts
    ensures TrackStarted(s, id, native).turn.value.identity == s.turn.value.identity
    ensures TrackStarted(s, id, native).turn.value.settlement == s.turn.value.settlement
    ensures TrackStarted(s, id, native).fenced == s.fenced
    ensures TrackStarted(s, id, native).turn.value.request.accepted == s.turn.value.request.accepted
  {
  }

  lemma ProofKeepsRequest(s: State, id: Id, proof: Proof)
    requires s.turn.Some?
    ensures ProveExact(s, id, proof).0.turn.Some?
    ensures ProveExact(s, id, proof).0.turn.value.request == s.turn.value.request
    ensures ProveExact(s, id, proof).0.turn.value.group == s.turn.value.group
  {
  }

  /** `turn/started` writes no text, and settles a turn only by fencing it. */
  lemma TrackedKeepsAnswer(s: State, id: Id, native: NativeTurn)
    requires s.turn.Some?
    ensures Tracked(s, id, native).turn.value.texts == s.turn.value.texts
    ensures s.turn.value.identity.nativeId.Some? ==>
              Tracked(s, id, native).turn.value.identity.nativeId == s.turn.value.identity.nativeId
    ensures !Tracked(s, id, native).fenced ==>
              Tracked(s, id, native).turn.value.settlement.completed == s.turn.value.settlement.completed
  {
    var (s1, proceed) := ProveExact(s, id, ExactStarted);
    TrackKeepsAnswer(s, id, native);
    TrackKeepsAnswer(WithTurn(s1, OpenStarted(s1.turn.value, id)), id, native);
  }

  lemma TrackedKeepsRequest(s: State, id: Id, native: NativeTurn)
    requires s.turn.Some? && s.turn.value.request.accepted
    ensures Tracked(s, id, native).turn.value.request.accepted
  {
    ProofKeepsRequest(s, id, ExactStarted);
    var (s1, proceed) := ProveExact(s, id, ExactStarted);
    TrackKeepsAnswer(s, id, native);
    TrackKeepsAnswer(WithTurn(s1, OpenStarted(s1.turn.value, id)), id, native);
  }

  lemma NoteSetsAnswer(s: State, note: Notification, now: int)
    requires s.turn.Some? && s.turn.value.request.accepted
    ensures var r := ReplayOne(s, note, now).turn.value; var nativeId := s.turn.value.identity.nativeId;
      && r.texts.final == (if note.ProgressNote? && note.effect.FinalText? && Some(note.id) == nativeId
                           then AnswerOf(note.effect.text) else s.turn.value.texts.final)
      && r.identity.nativeId == nativeId && r.request.accepted
  {
    if note.StartedNote? && Some(note.id) == s.turn.value.identity.nativeId {
      var s1 := if s.nativeActive.None? || s.nativeActive == Some(note.id) then s.(nativeActive := Some(note.id)) else s;
      TrackedKeepsAnswer(s1, note.id, note.turn);
      TrackedKeepsRequest(s1, note.id, note.turn);
    }
  }

  /** A group settled by the root response is attributed like any other; the
      replay that follows then keeps that answer, unless a buffered note of the
      turn carries a final text, which replaces it. */
  lemma {:induction false} ResponseAttributesGroup(s: State, id: Option<Id>, now: int)
    requires Shaped(s) && s.point.AwaitRoot? && Unsettled(s) && !ResponseContradicts(s.turn.value, ResponseId(s, id))
    requires SettleAfterResponse(Bound(s, ResponseId(s, id))).turn.value.settlement.completed
    ensures var settled := SettleAfterResponse(Bound(s, ResponseId(s, id))).turn.value;
      && GroupAnswer(s.turn.value.texts, settled)
      && OnRootResponse(s, id, now).turn.value.texts.final
         == Overwritten(settled.texts.final, s.turn.value.buffers.notes, ResponseId(s, id))
  {
    var b := Bound(s, ResponseId(s, id));
    ResponseSettlesOnce(b);
    var s1 := SettleAfterResponse(b);
    var s2 := WithTurn(s1, s1.turn.value.(buffers := s1.turn.value.buffers.(notes := [])));
    ReplaySetsAnswer(s2, s1.turn.value.buffers.notes, now);
    ReplayKeepsAccount(s2, s2, s1.turn.value.buffers.notes, now);
  }

  lemma ResponseSettlesOnce(b: State)
    requires Answerless(b) && SettleAfterResponse(b).turn.value.settlement.completed
    ensures SettleAfterResponse(b) == SettleSteered(b, b.turn.value.settlement.terminal.value)
    ensures GroupAnswer(b.turn.value.texts, SettleAfterResponse(b).turn.value)
    ensures SettleAfterResponse(b).turn.value.buffers == b.turn.value.buffers
    ensures SettleAfterResponse(b).turn.value.identity == b.turn.value.identity
    ensures SettleAfterResponse(b).turn.value.request == b.turn.value.request
  {
    assert b.turn.value.settlement.terminal.Some?;
    SteeredAnswersGroup(b, b.turn.value.settlement.terminal.value);
    SteeredKeepsIdentity(b, b.turn.value.settlement.terminal.value);
  }

  lemma SteeredKeepsIdentity(s: State, native: NativeTurn)
    requires s.turn.Some?
    ensures var t, u := s.turn.value, SettleSteered(s, native).turn.value;
      u.buffers == t.buffers && u.identity == t.identity && u.request == t.request
  {
  }

  /** Binding the response settles the turn exactly if it holds back a completion
      under the proven id, and then from that completion. */
  lemma BindingSettlesExactly(s: State, id: Option<Id>)
    requires Shaped(s) && s.point.AwaitRoot? && Unsettled(s) && !ResponseContradicts(s.turn.value, id)
    ensures var t, r := s.turn.value, SettleAfterResponse(Bound(s, id));
      && (r.turn.value.settlement.completed <==> HoldsCanonical(t))
      && (HoldsCanonical(t) ==> r == SettleSteered(Bound(s, id), t.settlement.terminal.value))
  {
    BoundKept(s, id);
    var b := Bound(s, id);
    assert b.turn.value.identity.canonical == s.turn.value.identity.canonical || s.turn.value.identity.canonical.None?;
    if HoldsCanonical(s.turn.value) {
      SettledCanonical(b);
    } else if SettleAfterResponse(b).turn.value.settlement.completed {
      SettlingCompletes(b);
    }
  }

  lemma SettlingCompletes(b: State)
    requires Answerless(b) && SettleAfterResponse(b).turn.value.settlement.completed
    ensures HoldsCanonical(b.turn.value)
  {
  }

  lemma SettledCanonical(b: State)
    requires Answerless(b) && HoldsCanonical(b.turn.value) && !b.turn.value.request.pending
    requires b.turn.value.identity.canonical.Some? && SteerableRoot(b.turn.value)
    requires |b.turn.value.group.members| > 1 || ExactlyProven(b.turn.value)
    ensures SettleAfterResponse(b) == SettleSteered(b, b.turn.value.settlement.terminal.value)
    ensures SettleAfterResponse(b).turn.value.settlement.completed
  {
  }

  lemma VerdictIsText(s: State, native: NativeTurn)
    requires Answerless(s)
    ensures SettleSteered(s, native).turn.value.texts.final == VerdictText(s.turn.value.texts.final, s.turn.value.group.members, native)
  {
  }

  /** What is left open by then. */
  lemma PendingAnswers(s: State, pending: seq<NativeTurn>, now: int)
    requires Answerless(s) && ExactMatches(pending, s.turn.value.clientId) == []
    ensures var t, u := s.turn.value, Concluded(s, pending, now).turn.value;
      var mine := NativeMatches(pending, t.identity.nativeId);
      u.settlement.completed ==>
        u.texts.final == (if |mine| > 1 then Conflict(ManyMatches)
                          else if t.request.kind == StartRequest && |mine| == 1 then EarlyText(t.texts.final, mine[0])
                          else Conflict(LegacyInput))
  {
    var mine := NativeMatches(pending, s.turn.value.identity.nativeId);
    AdmissionKeepsText(SettlePending(s, pending, now));
    if pending != [] {
      if |mine| <= 1 && !(s.turn.value.request.kind == StartRequest && |mine| == 1) {
        LookupAnswers(s, true, now);
        LookupAnswers(s, false, now);
      }
    }
  }

  lemma AdmissionKeepsText(s: State)
    requires s.turn.Some?
    ensures TryAdmit(s).turn.value.texts == s.turn.value.texts
    ensures TryAdmit(s).turn.value.settlement == s.turn.value.settlement
  {
  }

  lemma LookupAnswers(s: State, keepPending: bool, now: int)
    requires Answerless(s)
    ensures var u := StartSingleScan(s, keepPending, now).turn.value;
      u.settlement.completed ==> u.texts.final == Conflict(LegacyInput)
  {
  }

  lemma OpenAnswers(s: State, id: Option<Id>, now: int)
    requires Shaped(s) && s.point.AwaitRoot? && Unsettled(s) && !ResponseContradicts(s.turn.value, id)
    requires !HoldsCanonical(s.turn.value)
    ensures var r := Settled(s, id, now); var t := s.turn.value;
      && Answerless(r) && r.turn.value.clientId == t.clientId && r.turn.value.request.kind == t.request.kind
      && r.turn.value.identity.nativeId == id
      && r.turn.value.texts.final == Overwritten(t.texts.final, t.buffers.notes, id)
  {
    BindingSettlesExactly(s, id);
    BoundKept(s, id);
    BoundAgrees(s, id);
    var s1 := SettleAfterResponse(Bound(s, id));
    OpenBinding(Bound(s, id));
    NotesSteerExactly(s1, now);
    var s2 := WithTurn(s1, s1.turn.value.(buffers := s1.turn.value.buffers.(notes := [])));
    ReplaySetsAnswer(s2, s1.turn.value.buffers.notes, now);
  }

  lemma OpenBinding(b: State)
    requires Answerless(b) && !SettleAfterResponse(b).turn.value.settlement.completed
    ensures var r, t := SettleAfterResponse(b).turn.value, b.turn.value;
      && r.texts == t.texts && r.buffers == t.buffers && r.identity == t.identity && r.request == t.request
      && r.clientId == t.clientId && !r.settlement.conflictReported
  {
    if CanResume(b) && b.turn.value.settlement.terminal.value.id.Some? {
      SettlingCompletesAlways(b, b.turn.value.settlement.terminal.value);
    }
    if SettlesBufferedCanonical(b.turn.value) {
      SettlingCompletesAlways(ResumeBuffered(b), b.turn.value.settlement.terminal.value);
    }
    assert ResumeBuffered(b) == b || ResumeBuffered(b) == StartGroupScan(b);
  }

  lemma SettlingCompletesAlways(s: State, native: NativeTurn)
    requires s.turn.Some? && (s.turn.value.settlement.conflictReported ==> s.turn.value.settlement.completed)
    ensures SettleSteered(s, native).turn.value.settlement.completed
  {
  }

  /** The answer of a turn that the root response settles. */
  lemma {:induction false} ResponseAnswers(s: State, id: Option<Id>, now: int)
    requires Shaped(s) && !s.fenced && s.point.AwaitRoot? && Unsettled(s)
    requires var r := OnRootResponse(s, id, now); !r.fenced && r.turn.Some? && r.turn.value.settlement.completed
    ensures OnRootResponse(s, id, now).turn.value.texts.final == ResponseText(s.turn.value, ResponseId(s, id))
  {
    var responseId := ResponseId(s, id);
    assert !ResponseContradicts(s.turn.value, responseId);
    BindingSettlesExactly(s, responseId);
    if HoldsCanonical(s.turn.value) {
      ResponseAttributesGroup(s, id, now);
      BoundKept(s, responseId);
      VerdictIsText(Bound(s, responseId), s.turn.value.settlement.terminal.value);
    } else {
      OpenAnswers(s, responseId, now);
      PendingAnswers(Settled(s, responseId, now), s.turn.value.buffers.completions, now);
    }
  }

  /** In every run, no completion buffered before the response carries the root's
      client id exactly once: such a completion is a proof or settles at once. */
  lemma {:induction false} NoExactCompletionIsBuffered(config: Config, steps: seq<Step>)
    ensures var s := Run(Init(config), steps);
      s.turn.Some? ==> ExactMatches(s.turn.value.buffers.completions, s.turn.value.clientId) == []
  {
    RunShaped(config, steps);
  }

  // ---------------------------------------------------------------------------
  // Keep-pending
  // ---------------------------------------------------------------------------

  lemma ProgressWatched(s: State, id: Option<Id>, effect: ProgressEffect, now: int)
    requires Watched(s)
    ensures Watched(OnProgress(s, id, effect, now))
  {
  }

  lemma {:induction false} ReplayWatched(s: State, notes: seq<Notification>, now: int)
    requires s.turn.Some? && Watched(s)
    ensures Watched(ReplayAll(s, notes, now))
    decreases |notes|
  {
    if notes != [] {
      match notes[0] {
        case ProgressNote(id, effect) => ProgressWatched(s, Some(id), effect, now);
        case StartedNote(id, native) => SameWatchWatched(s, OnStarted(s, Some(id), native, true));
      }
      ReplayWatched(ReplayOne(s, notes[0], now), notes[1..], now);
    }
  }

  lemma SettledWatched(s: State, id: Option<Id>, now: int)
    requires s.turn.Some? && Watched(s)
    ensures Watched(Settled(s, id, now))
  {
    var s1 := SettleAfterResponse(Bound(s, id));
    assert Watched(s1);
    var s2 := WithTurn(s1, s1.turn.value.(buffers := s1.turn.value.buffers.(notes := [])));
    ReplayWatched(s2, s1.turn.value.buffers.notes, now);
  }

  lemma RootResponseWatched(s: State, id: Option<Id>, now: int)
    requires s.point.AwaitRoot? && s.turn.Some? && Watched(s)
    ensures Watched(OnRootResponse(s, id, now))
  {
    var responseId := if id.Some? then id else s.turn.value.identity.nativeId;
    if ResponseContradicts(s.turn.value, responseId) {
      SameWatchWatched(s, OnRootResponse(s, id, now));
    } else {
      SettledWatched(s, responseId, now);
      PendingWatched(Settled(s, responseId, now), s.turn.value.buffers.completions, now);
      var s1 := SettlePending(Settled(s, responseId, now), s.turn.value.buffers.completions, now);
      SameWatchWatched(s1, TryAdmit(s1));
    }
  }

  lemma SameWatchWatched(s: State, r: State)
    requires Watched(s) && SameWatch(s, r)
    ensures Watched(r)
  {
  }

  lemma PendingWatched(s: State, pending: seq<NativeTurn>, now: int)
    requires s.turn.Some? && Watched(s)
    ensures Watched(SettlePending(s, pending, now))
  {
    var t := s.turn.value;
    if pending != [] && !t.settlement.completed {
      var exact := ExactMatches(pending, t.clientId);
      var mine := NativeMatches(pending, t.identity.nativeId);
      if |exact| == 1 || |exact| > 1 || |mine| > 1 {
        assert SameWatch(s, SettlePending(s, pending, now));
      } else if t.request.kind == SteerRequest && |mine| == 1 {
        SingleScanWatched(s, false, now);
      } else if !(t.request.kind == StartRequest && |mine| == 1) {
        SingleScanWatched(s, true, now);
      }
    }
  }

  lemma SingleScanWatched(s: State, keepPending: bool, now: int)
    requires s.turn.Some? && Watched(s)
    ensures Watched(StartSingleScan(s, keepPending, now))
  {
  }

  lemma NextWatched(s: State, step: Step)
    requires Watched(s)
    ensures Watched(Next(s, step))
  {
    if Enabled(s, step) {
      match step
      case RootResponse(id, now) => RootResponseWatched(s, id, now);
      case Progress(id, effect, now) => ProgressWatched(s, id, effect, now);
      case _ => assert SameWatch(s, Next(s, step));
    }
  }

  /** In every run the deadline is one window after the last recorded sign. */
  lemma {:induction false} DeadlineFollowsLastSign(config: Config, steps: seq<Step>)
    ensures Watched(Run(Init(config), steps))
  {
    if steps != [] {
      DeadlineFollowsLastSign(config, steps[..|steps| - 1]);
      NextWatched(Run(Init(config), steps[..|steps| - 1]), steps[|steps| - 1]);
    }
  }

  // ---- silence, over the steps of a run -------------------------------------

  /** The clock reading that comes with a step. */
  function ClockOf(step: Step): Option<int> {
    match step
    case RootResponse(_, now) => Some(now)
    case Progress(_, _, now) => Some(now)
    case HistoryScanned(_, now) => Some(now)
    case _ => None
  }

  /** Clock readings never go back. */
  predicate ClockAdvances(steps: seq<Step>) {
    forall j, k :: 0 <= j < k < |steps| && ClockOf(steps[j]).Some? && ClockOf(steps[k]).Some?
      ==> ClockOf(steps[j]).value <= ClockOf(steps[k]).value
  }

  /** Progress that does not name another native turn than the accepted one. */
  predicate OwnProgress(s: State, step: Step) {
    && step.Progress?
    && (s.turn.Some? && s.turn.value.request.accepted && s.turn.value.identity.nativeId.Some? && step.id.Some?
        ==> step.id == s.turn.value.identity.nativeId)
  }

  /** A deadline, if armed, leaves a full window after `at`. */
  predicate WaitsFrom(s: State, config: Config, at: int) {
    && s.config == config
    && (DeadlineOf(s).Some? ==> DeadlineOf(s).value >= at + config.keepPendingWindow)
  }

  lemma SameWatchWaits(s: State, r: State, config: Config, at: int)
    requires WaitsFrom(s, config, at) && SameWatch(s, r)
    ensures WaitsFrom(r, config, at)
  {
  }

  lemma ProgressWaits(s: State, id: Option<Id>, effect: ProgressEffect, now: int, config: Config, at: int)
    requires WaitsFrom(s, config, at) && at <= now
    ensures WaitsFrom(OnProgress(s, id, effect, now), config, at)
  {
  }

  lemma {:induction false} ReplayWaits(s: State, notes: seq<Notification>, now: int, config: Config, at: int)
    requires s.turn.Some? && WaitsFrom(s, config, at) && at <= now
    ensures WaitsFrom(ReplayAll(s, notes, now), config, at)
    decreases |notes|
  {
    if notes != [] {
      match notes[0] {
        case ProgressNote(id, effect) => ProgressWaits(s, Some(id), effect, now, config, at);
        case StartedNote(id, native) => SameWatchWaits(s, OnStarted(s, Some(id), native, true), config, at);
      }
      ReplayWaits(ReplayOne(s, notes[0], now), notes[1..], now, config, at);
    }
  }

  lemma PendingWaits(s: State, pending: seq<NativeTurn>, now: int, config: Config, at: int)
    requires s.turn.Some? && WaitsFrom(s, config, at) && at <= now
    ensures WaitsFrom(SettlePending(s, pending, now), config, at)
  {
    var t := s.turn.value;
    var r := SettlePending(s, pending, now);
    var exact := ExactMatches(pending, t.clientId);
    var mine := NativeMatches(pending, t.identity.nativeId);
    if |exact| >= 1 || |mine| > 1 || (t.request.kind == StartRequest && |mine| == 1) {
      assert SameWatch(s, r);
    } else {
      ScanWaits(s, false, now, config, at);
      ScanWaits(s, true, now, config, at);
    }
  }

  lemma ScanWaits(s: State, keepPending: bool, now: int, config: Config, at: int)
    requires s.turn.Some? && WaitsFrom(s, config, at) && at <= now
    ensures WaitsFrom(StartSingleScan(s, keepPending, now), config, at)
  {
  }

  lemma SettledWaits(s: State, id: Option<Id>, now: int, config: Config, at: int)
    requires s.turn.Some? && WaitsFrom(s, config, at) && at <= now
    ensures WaitsFrom(Settled(s, id, now), config, at)
  {
    var s1 := SettleAfterResponse(Bound(s, id));
    assert WaitsFrom(s1, config, at);
    var s2 := WithTurn(s1, s1.turn.value.(buffers := s1.turn.value.buffers.(notes := [])));
    ReplayWaits(s2, s1.turn.value.buffers.notes, now, config, at);
  }

  lemma RootResponseWaits(s: State, id: Option<Id>, now: int, config: Config, at: int)
    requires s.point.AwaitRoot? && s.turn.Some? && WaitsFrom(s, config, at) && at <= now
    ensures WaitsFrom(OnRootResponse(s, id, now), config, at)
  {
    if ResponseContradicts(s.turn.value, ResponseId(s, id)) {
      SameWatchWaits(s, OnRootResponse(s, id, now), config, at);
    } else {
      var s1 := Settled(s, ResponseId(s, id), now);
      SettledWaits(s, ResponseId(s, id), now, config, at);
      PendingWaits(s1, s.turn.value.buffers.completions, now, config, at);
      var s2 := SettlePending(s1, s.turn.value.buffers.completions, now);
      SameWatchWaits(s2, TryAdmit(s2), config, at);
    }
  }

  lemma NextWaits(s: State, step: Step, config: Config, at: int)
    requires WaitsFrom(s, config, at) && (ClockOf(step).Some? ==> at <= ClockOf(step).value)
    ensures WaitsFrom(Next(s, step), config, at)
  {
    if Enabled(s, step) {
      match step
      case RootResponse(id, now) => RootResponseWaits(s, id, now, config, at);
      case Progress(id, effect, now) => ProgressWaits(s, id, effect, now, config, at);
      case _ => SameWatchWaits(s, Next(s, step), config, at);
    }
  }

  /** Progress pushes the deadline a full window away. */
  lemma ProgressStartsWait(s: State, step: Step)
    requires Shaped(s) && OwnProgress(s, step)
    ensures WaitsFrom(Next(s, step), s.config, step.now)
  {
  }

  lemma {:induction false} DeadlineAfterProgress(config: Config, steps: seq<Step>, p: nat)
    requires p < |steps| && ClockAdvances(steps) && OwnProgress(Run(Init(config), steps[..p]), steps[p])
    ensures WaitsFrom(Run(Init(config), steps), Run(Init(config), steps[..p]).config, steps[p].now)
  {
    var n := |steps| - 1;
    if p == n {
      RunShaped(config, steps[..n]);
      ProgressStartsWait(Run(Init(config), steps[..n]), steps[n]);
    } else {
      assert steps[..n][..p] == steps[..p];
      DeadlineAfterProgress(config, steps[..n], p);
      NextWaits(Run(Init(config), steps[..n]), steps[n], Run(Init(config), steps[..p]).config, steps[p].now);
    }
  }

  lemma DeadlineEndsExactly(s: State, history: seq<NativeTurn>, now: int)
    requires s.turn.Some?
    ensures Next(s, HistoryScanned(history, now)).trace.conflicts == s.trace.conflicts + [DeadlineReached]
        ==> DeadlinePassed(s.turn.value, now)
  {
    match s.turn.value.settlement.scan
    case NoScan =>
    case SingleScan(keep) => ScanEndsExactly(s, history, keep, now);
    case GroupScan =>
      var matches := GroupMatches(history, SentIds(s.turn.value.group.members));
      ConflictIsReported(s, if |matches| == 0 then NoMatch else ManyMatches, DeadlineReached);
  }

  lemma ConflictIsReported(s: State, reason: Reason, other: Reason)
    requires s.turn.Some?
    ensures ReportConflict(s, reason).trace.conflicts == s.trace.conflicts + [other] ==> reason == other
  {
    var r := ReportConflict(s, reason);
    if r.trace.conflicts == s.trace.conflicts + [other] {
      assert r.trace.conflicts[|s.trace.conflicts|] == other;
    }
  }

  lemma ScanEndsExactly(s: State, history: seq<NativeTurn>, keep: bool, now: int)
    requires s.turn.Some?
    ensures OnSingleScan(s, history, keep, now).trace.conflicts == s.trace.conflicts + [DeadlineReached]
        ==> DeadlinePassed(s.turn.value, now)
  {
    ConflictIsReported(s, ClientIdRepeated, DeadlineReached);
    ConflictIsReported(s, ManyMatches, DeadlineReached);
    ConflictIsReported(s, NoMatch, DeadlineReached);
    ConflictIsReported(s, OwnTurnTerminated, DeadlineReached);
  }

  /** In every run whose clock never goes back: when an armed wait is given up for
      silence, the accepted turn made no progress within one whole window. */
  lemma {:induction false} KeepPendingWaitsForSilence(config: Config, steps: seq<Step>, p: nat, history: seq<NativeTurn>, now: int)
    requires p < |steps| && ClockAdvances(steps) && OwnProgress(Run(Init(config), steps[..p]), steps[p])
    requires var s := Run(Init(config), steps);
      DeadlineOf(s).Some? && Next(s, HistoryScanned(history, now)).trace.conflicts == s.trace.conflicts + [DeadlineReached]
    ensures now >= steps[p].now + Run(Init(config), steps).config.keepPendingWindow
  {
    DeadlineAfterProgress(config, steps, p);
    DeadlineEndsExactly(Run(Init(config), steps), history, now);
  }

  /** The history holds no terminal turn with the exact client id. */
  predicate NoExactMatch(t: Turn, history: seq<NativeTurn>) {
    !Repeats(history, t.clientId) && SingleMatches(history, t.clientId) == []
  }

  /** A fruitless scan ends a keep-pending wait exactly when the accepted turn's
      own terminal record is there, nothing could be armed, or one full window
      has passed since the last sign of the accepted turn. */
  lemma {:induction false} KeepPendingEndsExactly(s: State, history: seq<NativeTurn>, now: int)
    requires s.turn.Some? && !s.turn.value.settlement.completed && !s.turn.value.settlement.conflictReported
    requires Watched(s) && s.turn.value.settlement.scan == SingleScan(true) && NoExactMatch(s.turn.value, history)
    ensures var t := s.turn.value;
      var silent := t.settlement.deadline.Some? && now >= s.trace.signs[|s.trace.signs| - 1].at + s.config.keepPendingWindow;
      var r := Next(s, HistoryScanned(history, now));
      if OwnTerminal(history, t.identity.nativeId) then
        r.trace.conflicts == s.trace.conflicts + [OwnTurnTerminated] && r.turn.value.settlement.completed
      else if t.settlement.deadline.None? || silent then
        r.trace.conflicts == s.trace.conflicts + [DeadlineReached] && r.turn.value.settlement.completed
      else r == s
  {
  }

  /** Another native turn starting, progressing or completing never by itself
      ends the wait or moves its deadline; it is noticed at all only by a group. */
  lemma ForeignTurnsDoNotEndTheWait(s: State, id: Id, native: NativeTurn, effect: ProgressEffect, now: int)
    requires Shaped(s) && !s.fenced && s.turn.Some? && s.turn.value.settlement.scan == SingleScan(true)
    requires s.turn.value.identity.nativeId.Some? && s.turn.value.identity.nativeId != Some(id)
    requires s.turn.value.identity.canonical != Some(id) && |Exact(native, s.turn.value.clientId)| != 1
    ensures Next(s, TurnStarted(Some(id), native)).turn == s.turn
    ensures Next(s, Progress(Some(id), effect, now)) == s
    ensures var r := Next(s, TurnCompleted(Some(id), native)).turn;
      && (!InGroupMode(s.turn.value) ==> r == s.turn)
      && r.Some? && r.value.settlement.scan == SingleScan(true)
      && r.value.settlement.completed == s.turn.value.settlement.completed
      && r.value.settlement.deadline == s.turn.value.settlement.deadline
  {
    ForeignCompletionIsIgnored(s, id, native);
  }

  lemma ForeignCompletionIsIgnored(s: State, id: Id, native: NativeTurn)
    requires s.turn.Some? && s.turn.value.settlement.scan.SingleScan? && s.turn.value.request.accepted
    requires s.turn.value.identity.nativeId != Some(id) && s.turn.value.identity.canonical != Some(id)
    requires |Exact(native, s.turn.value.clientId)| != 1
    ensures var r := OnCompleted(s, Some(id), native).turn;
      && (!InGroupMode(s.turn.value) ==> r == s.turn)
      && r.Some? && r.value.settlement.scan == s.turn.value.settlement.scan
      && r.value.settlement.completed == s.turn.value.settlement.completed
      && r.value.settlement.deadline == s.turn.value.settlement.deadline
  {
  }

  /** In every run, a wait that has no native id to track is over after its first
      fruitless scan: nothing was armed, so it fails closed. */
  lemma {:induction false} UnboundWaitFailsClosed(config: Config, steps: seq<Step>, history: seq<NativeTurn>, now: int)
    requires var s := Run(Init(config), steps);
      && Unsettled(s) && s.turn.value.settlement.scan == SingleScan(true) && s.turn.value.identity.nativeId.None?
      && NoExactMatch(s.turn.value, history)
    ensures var s := Run(Init(config), steps); var r := Next(s, HistoryScanned(history, now));
      && DeadlineOf(s).None? && r.turn.Some? && r.turn.value.settlement.completed
      && r.turn.value.texts == Texts(Conflict(DeadlineReached), "")
      && r.trace.conflicts == s.trace.conflicts + [DeadlineReached]
  {
    RunShaped(config, steps);
    UnboundScanFails(Run(Init(config), steps), history, now);
  }

  lemma UnboundScanFails(s: State, history: seq<NativeTurn>, now: int)
    requires Answerless(s) && s.turn.value.settlement.scan == SingleScan(true) && s.turn.value.identity.nativeId.None?
    requires s.turn.value.settlement.deadline.None? && NoExactMatch(s.turn.value, history)
    ensures OnHistory(s, history, now) == ReportConflict(s, DeadlineReached)
    ensures OnHistory(s, history, now).turn == Some(Conflicted(s.turn.value, DeadlineReached))
    ensures OnHistory(s, history, now).trace.conflicts == s.trace.conflicts + [DeadlineReached]
  {
  }
}
