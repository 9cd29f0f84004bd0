/**
 Concrete runs in which the driver breaks its own promises, one for each guard
 under which the theorems say that a promise fails. Each run uses only responses
 and notifications an app-server may send.
 */
module RunnerHazards {
  import opened Options
  import opened GroupIdentity
  import opened RunnerSteps
  import opened RunnerInvariant
  import opened RunnerTheorems
  import opened RunnerFence
  import opened RunnerBarrier
  import opened RunnerSettlement
  import opened RunnerGate
  import opened RunnerSteering

  lemma RunSnoc(s: State, steps: seq<Step>, step: Step)
    ensures Run(s, steps + [step]) == Next(Run(s, steps), step)
  {
    assert (steps + [step])[..|steps|] == steps;
  }

  lemma {:induction false} RunConcat(s: State, first: seq<Step>, rest: seq<Step>)
    ensures Run(s, first + rest) == Run(Run(s, first), rest)
  {
    if rest == [] {
      assert first + rest == first;
    } else {
      var n := |rest| - 1;
      assert first + rest == (first + rest[..n]) + [rest[n]];
      RunSnoc(s, first + rest[..n], rest[n]);
      RunConcat(s, first, rest[..n]);
    }
  }

  lemma TwoMore(s: State, head: seq<Step>, a: Step, b: Step)
    ensures Run(s, head + [a]) == Next(Run(s, head), a)
    ensures Run(s, head + [a, b]) == Next(Next(Run(s, head), a), b)
  {
    RunSnoc(s, head, a);
    RunSnoc(s, head + [a], b);
    assert head + [a] + [b] == head + [a, b];
  }

  lemma ThreeSteps(s: State, a: Step, b: Step, c: Step)
    ensures Run(s, [a, b, c]) == Next(Next(Next(s, a), b), c)
  {
    TwoMore(s, [], a, b);
    RunSnoc(s, [a, b], c);
    assert [] + [a, b] == [a, b] && [a, b] + [c] == [a, b, c];
  }

  const CONFIG := Config(true, true, 90_000)

  /** A message whose reply id, and so client id, is `id`. */
  function Message(id: Id): Line {
    Framed("", Some(id), Some(Sidecar(None)), true)
  }

  /** A finished turn reported without its items. */
  function Thin(id: Id): NativeTurn {
    NativeTurn(Some(id), Finished, false, [], None)
  }

  /** A finished turn reported in full: the message of client `clientId` only. */
  function Echo(id: Option<Id>, clientId: Id): NativeTurn {
    NativeTurn(id, Finished, true, [UserMessage(Some(clientId))], None)
  }

  lemma EchoIsExact(id: Option<Id>, clientId: Id)
    ensures Exact(Echo(id, clientId), Some(clientId)) == [0]
  {
    SoleIndex([UserMessage(Some(clientId))], clientId, 0);
  }

  // ---------------------------------------------------------------------------
  // A final after the fence
  // ---------------------------------------------------------------------------

  /** A turn settled while its own steer is still in flight, with that steer's
      input alone in the queue. */
  predicate SteerOutlives(s: State) {
    && s.point.AwaitDone? && !s.fenced && s.nativeActive.None? && |s.queue| == 1
    && s.steer.Some? && s.turn.Some? && s.turn.value.settlement.completed && s.turn.value.phase != Fenced
    && s.turn.value.epoch == s.steer.value.epoch == s.epoch
  }

  /** What follows when the steer reply then arrives and contradicts the queue. */
  function AfterStaleSteer(s: State): seq<Step>
    requires SteerOutlives(s)
  {
    [Finalize, AfterTurn, Launch, SteerReplied(SteerTurn(Some(s.steer.value.expected)))]
  }

  const ANSWERED: seq<Step> := [RootResponse(Some(9), 0), TurnCompleted(Some(9), Thin(9)), Finalize]

  /** A new root is starting, with nothing heard about it yet. */
  predicate StartingRoot(s: State) {
    && s.point.AwaitRoot? && s.turn.Some? && s.turn.value.phase == Starting && s.turn.value.epoch == s.epoch
    && s.turn.value.request.kind == StartRequest && !s.turn.value.settlement.completed
    && s.turn.value.identity == Identity(None, None, None) && s.turn.value.buffers == Buffers([], [])
    && |s.turn.value.group.members| == 1 && !s.turn.value.group.steerInFlight
    && s.turn.value.settlement.scan == NoScan && !s.turn.value.settlement.completionSeen
  }

  lemma NextInputStarts(s: State)
    requires SteerOutlives(s)
    ensures var r := Next(Next(Next(s, Finalize), AfterTurn), Launch);
      StartingRoot(r) && !r.fenced && r.steer == s.steer && r.queue == [] && r.epoch == s.epoch + 1
  {
    var s1 := Next(s, Finalize);
    var s2 := Next(s1, AfterTurn);
    assert s2.point == Launching(s.queue[0]) && s2.queue == [];
  }

  lemma StaleReplyFences(s: State)
    requires StartingRoot(s) && s.steer.Some? && s.steer.value.epoch != s.epoch && s.queue == []
    requires !s.fenced
    ensures FencesTheWrongTurn(s, SteerReplied(SteerTurn(Some(s.steer.value.expected))))
    ensures var r := Next(s, SteerReplied(SteerTurn(Some(s.steer.value.expected)))); r.fenced && StartingRoot(r)
  {
  }

  lemma StaleSteerFencesTheWrongTurn(s: State)
    requires SteerOutlives(s)
    ensures FencesTheWrongTurn(Run(s, AfterStaleSteer(s)[..3]), AfterStaleSteer(s)[3])
    ensures Run(s, AfterStaleSteer(s)).fenced && StartingRoot(Run(s, AfterStaleSteer(s)))
  {
    var last := SteerReplied(SteerTurn(Some(s.steer.value.expected)));
    NextInputStarts(s);
    ThreeSteps(s, Finalize, AfterTurn, Launch);
    StaleReplyFences(Run(s, [Finalize, AfterTurn, Launch]));
    RunSnoc(s, [Finalize, AfterTurn, Launch], last);
    assert [Finalize, AfterTurn, Launch] + [last] == AfterStaleSteer(s);
    assert AfterStaleSteer(s)[..3] == [Finalize, AfterTurn, Launch];
  }

  lemma FencedRunnerStillAnswers(s: State)
    requires s.fenced && StartingRoot(s)
    ensures |Run(s, ANSWERED).finals| == |s.finals| + 1
  {
    ResponseAccepted(s);
    AnswerSettles(Next(s, RootResponse(Some(9), 0)));
    ThreeSteps(s, RootResponse(Some(9), 0), TurnCompleted(Some(9), Thin(9)), Finalize);
  }

  /** Native turn 9 is the active turn's, and nothing has settled it. */
  predicate Answerable(s: State) {
    && s.point.AwaitDone? && s.turn.Some? && s.turn.value.identity.nativeId == Some(9) && s.turn.value.phase == Open
    && s.turn.value.request.accepted && s.turn.value.request.kind == StartRequest
    && |s.turn.value.group.members| == 1 && !s.turn.value.group.steerInFlight && !s.turn.value.settlement.completed
  }

  lemma ResponseAccepted(s: State)
    requires s.fenced && StartingRoot(s)
    ensures Answerable(Next(s, RootResponse(Some(9), 0)))
    ensures Next(s, RootResponse(Some(9), 0)).finals == s.finals
  {
  }

  lemma AnswerSettles(s: State)
    requires Answerable(s)
    ensures |Next(Next(s, TurnCompleted(Some(9), Thin(9))), Finalize).finals| == |s.finals| + 1
  {
    assert Exact(Thin(9), s.turn.value.clientId) == [];
  }

  // ---------------------------------------------------------------------------
  // Building the runs
  // ---------------------------------------------------------------------------

  /** The first message, client id 1, is started and awaits its response. */
  predicate Awaiting(s: State, buffers: Buffers) {
    && s.config == CONFIG && !s.cleanInputUnsupported && !s.fenced && s.point.AwaitRoot? && s.steer.None? && s.queue == []
    && s.turn.Some? && s.turn.value.epoch == s.epoch && s.turn.value.clientId == Some(1)
    && s.turn.value.request.kind == StartRequest && !s.turn.value.request.accepted && s.turn.value.request.pending
    && s.turn.value.buffers == buffers && s.turn.value.texts == Texts(Nothing, "")
    && OneMember(s.turn.value) && !s.turn.value.group.closed
    && s.turn.value.settlement == Settlement(false, None, NoScan, None, false, false)
  }

  predicate OneMember(t: Turn) {
    |t.group.members| == 1 && t.group.members[0].clientId == Some(1) && t.group.members[0].input.steerable && !t.group.steerInFlight
  }

  predicate Unproven(s: State) {
    s.turn.Some? && s.turn.value.identity == Identity(None, None, None) && s.turn.value.phase == Starting && s.nativeActive.None?
  }

  /** An exact `turn/started` named native turn 7. */
  predicate Proven(s: State) {
    s.turn.Some? && s.turn.value.identity == Identity(Some(7), Some(7), Some(ExactStarted)) && s.turn.value.phase == Open
    && s.nativeActive == Some(7)
  }

  const OPENING: seq<Step> := [Enqueue(Message(1)), Launch]

  lemma Opened()
    ensures Awaiting(Run(Init(CONFIG), OPENING), Buffers([], [])) && Unproven(Run(Init(CONFIG), OPENING))
  {
    var s1 := Next(Init(CONFIG), Enqueue(Message(1)));
    assert s1.point.Launching? && s1.queue == [];
    RunSnoc(Init(CONFIG), [], Enqueue(Message(1)));
    RunSnoc(Init(CONFIG), [Enqueue(Message(1))], Launch);
    assert [] + [Enqueue(Message(1))] == [Enqueue(Message(1))] && [Enqueue(Message(1))] + [Launch] == OPENING;
  }

  lemma BuffersThin(s: State, id: Id)
    requires Awaiting(s, Buffers([], [])) && Unproven(s)
    ensures Awaiting(Next(s, TurnCompleted(Some(id), Thin(id))), Buffers([Thin(id)], []))
    ensures Unproven(Next(s, TurnCompleted(Some(id), Thin(id))))
  {
    assert Exact(Thin(id), Some(1)) == [];
    BuffersCompletion(s, id, Thin(id));
  }

  /** A completion without the first message waits for the start response. */
  lemma BuffersCompletion(s: State, id: Id, native: NativeTurn)
    requires Awaiting(s, Buffers([], [])) && Unproven(s) && Exact(native, Some(1)) == []
    ensures Awaiting(Next(s, TurnCompleted(Some(id), native)), Buffers([native], []))
    ensures Unproven(Next(s, TurnCompleted(Some(id), native)))
  {
  }

  lemma ProvesRoot(s: State, buffers: Buffers)
    requires Awaiting(s, buffers) && Unproven(s)
    ensures Awaiting(Next(s, TurnStarted(Some(7), Echo(Some(7), 1))), buffers)
    ensures Proven(Next(s, TurnStarted(Some(7), Echo(Some(7), 1))))
  {
    EchoIsExact(Some(7), 1);
    ProvesExactly(s.(nativeActive := Some(7)), buffers, Echo(Some(7), 1));
  }

  lemma ProvesExactly(s: State, buffers: Buffers, native: NativeTurn)
    requires Awaiting(s, buffers) && s.nativeActive == Some(7) && |Exact(native, Some(1))| == 1
    requires s.turn.value.identity == Identity(None, None, None) && s.turn.value.phase == Starting
    ensures Awaiting(Tracked(s, 7, native), buffers) && Proven(Tracked(s, 7, native))
  {
    var (s1, proceed) := ProveExact(s, 7, ExactStarted);
    var s2 := WithTurn(s1, OpenStarted(s1.turn.value, 7));
    assert proceed && s2.queue == [] && s2.turn.value.identity == Identity(Some(7), Some(7), Some(ExactStarted));
    assert !Admits(WithTurn(s2, s2.turn.value.(request := s2.turn.value.request.(serverStarted := true))));
  }

  /** The second message, client id 2, is being steered into native turn 7. */
  predicate SteeringSecond(s: State) {
    && s.turn.Some? && |s.queue| == 1 && s.queue[0].steerable && s.turn.value.group.steerInFlight
    && s.steer == Some(SteerCall(s.epoch, Dispatch(s.queue[0], Some(2)), 7))
  }

  lemma SteersSecond(s: State)
    requires s.config == CONFIG && !s.cleanInputUnsupported && !s.fenced && s.queue == [] && s.steer.None? && s.turn.Some?
    requires s.point.AwaitRoot? || s.point.AwaitDone?
    requires s.turn.value.epoch == s.epoch && s.turn.value.identity.canonical == Some(7) && s.turn.value.phase == Open
    requires OneMember(s.turn.value) && !s.turn.value.group.closed && !s.turn.value.settlement.completed
    ensures var r := Next(s, Enqueue(Message(2)));
      && SteeringSecond(r) && r.point == s.point && !r.fenced && r.epoch == s.epoch && r.nativeActive == s.nativeActive
      && r.turn == Some(s.turn.value.(group := s.turn.value.group.(steerInFlight := true)))
  {
  }

  // ---- a steer admitted while a lookup owns the turn ------------------------

  /** The second message is steered in while history is searched for the first,
      and the search settles the first without it. */
  const RECONCILED: seq<Step> := WAITING + [Enqueue(Message(2)), HistoryScanned([Echo(Some(7), 1)], 0)]

  const WAITING: seq<Step> := OPENING + [TurnCompleted(Some(8), Thin(8)), RootResponse(Some(7), 0)]

  /** A foreign completion buffered before the response starts a keep-pending wait. */
  predicate KeptPending(s: State) {
    && s.config == CONFIG && !s.cleanInputUnsupported && !s.fenced && s.point.AwaitDone? && s.steer.None? && s.queue == []
    && s.turn.Some? && s.turn.value.epoch == s.epoch && s.turn.value.clientId == Some(1) && s.turn.value.phase == Open
    && s.turn.value.identity == Identity(Some(7), Some(7), Some(StartResponse)) && s.nativeActive == Some(7)
    && OneMember(s.turn.value) && !s.turn.value.group.closed
    && s.turn.value.settlement.scan == SingleScan(true) && !s.turn.value.settlement.completed
    && !s.turn.value.settlement.conflictReported && !s.turn.value.settlement.completionSeen
  }

  /** The second message is then steered into the same turn. */
  predicate SteeredWhileLookedUp(s: State) {
    && s.point.AwaitDone? && !s.fenced && SteeringSecond(s) && s.nativeActive == Some(7)
    && s.turn.value.epoch == s.epoch && s.turn.value.clientId == Some(1) && s.turn.value.phase == Open
    && OneMemberSteering(s.turn.value) && s.turn.value.group.members[0].clientId == Some(1)
    && s.turn.value.settlement.scan == SingleScan(true) && !s.turn.value.settlement.completed
    && !s.turn.value.settlement.completionSeen
  }

  lemma SteersWhileLookedUp(s: State)
    requires KeptPending(s)
    ensures StartsOverlap(s, Enqueue(Message(2)))
    ensures SteeredWhileLookedUp(Next(s, Enqueue(Message(2))))
  {
    SteersSecond(s);
  }

  lemma ForeignCompletionKeepsPending(s: State)
    requires Awaiting(s, Buffers([Thin(8)], [])) && Unproven(s)
    ensures KeptPending(Next(s, RootResponse(Some(7), 0)))
  {
    assert ExactMatches([Thin(8)], Some(1)) == [];
    assert NativeMatches([Thin(8)], Some(7)) == [];
  }

  lemma ScanSettlesUnderSteer(s: State)
    requires SteeredWhileLookedUp(s)
    ensures SettlesUnderSteer(s, HistoryScanned([Echo(Some(7), 1)], 0))
    ensures var r := Next(s, HistoryScanned([Echo(Some(7), 1)], 0));
      SteerOutlives(r) && r.steer == s.steer && r.queue == s.queue
  {
    EchoIsExact(Some(7), 1);
    SoleMatch(Echo(Some(7), 1), Some(1));
  }

  lemma SoleMatch(native: NativeTurn, clientId: Option<Id>)
    requires Terminal(native) && |Exact(native, clientId)| == 1
    ensures SingleMatches([native], clientId) == [native] && !Repeats([native], clientId)
  {
    assert [native][..0] == [];
  }

  lemma PendingWaitReached()
    ensures KeptPending(Run(Init(CONFIG), WAITING))
  {
    Opened();
    TwoMore(Init(CONFIG), OPENING, TurnCompleted(Some(8), Thin(8)), RootResponse(Some(7), 0));
    var s2 := Run(Init(CONFIG), OPENING);
    BuffersThin(s2, 8);
    ForeignCompletionKeepsPending(Next(s2, TurnCompleted(Some(8), Thin(8))));
  }

  lemma {:induction false} ReconciledUnderSteer()
    ensures SteerOutlives(Run(Init(CONFIG), RECONCILED))
    ensures StartsOverlap(Run(Init(CONFIG), RECONCILED[..4]), RECONCILED[4])
    ensures SettlesUnderSteer(Run(Init(CONFIG), RECONCILED[..5]), RECONCILED[5])
  {
    PendingWaitReached();
    TwoMore(Init(CONFIG), WAITING, Enqueue(Message(2)), HistoryScanned([Echo(Some(7), 1)], 0));
    SteersWhileLookedUp(Run(Init(CONFIG), WAITING));
    ScanSettlesUnderSteer(Next(Run(Init(CONFIG), WAITING), Enqueue(Message(2))));
    assert RECONCILED[..4] == WAITING && RECONCILED[..5] == WAITING + [Enqueue(Message(2))];
  }

  // ---- a replay onto a steered turn -----------------------------------------

  /** The second message is steered in on an exact `turn/started`, and the start
      response then replays a completion buffered before it. */
  const REPLAYED: seq<Step> := BUFFERED + [Enqueue(Message(2)), RootResponse(Some(7), 0)]

  const BUFFERED: seq<Step> := OPENING + [TurnCompleted(Some(7), Thin(7)), TurnStarted(Some(7), Echo(Some(7), 1))]

  lemma ResponseReplaysUnderSteer(s: State)
    requires s.point.AwaitRoot? && !s.fenced && SteeringSecond(s) && Proven(s)
    requires s.turn.value.epoch == s.epoch && s.turn.value.clientId == Some(1) && OneMemberSteering(s.turn.value)
    requires s.turn.value.request.kind == StartRequest && s.turn.value.buffers == Buffers([Thin(7)], [])
    requires s.turn.value.settlement == Settlement(false, None, NoScan, None, false, false)
    ensures SettlesUnderSteer(s, RootResponse(Some(7), 0))
    ensures SteerOutlives(Next(s, RootResponse(Some(7), 0)))
  {
    assert ExactMatches([Thin(7)], Some(1)) == [];
    assert NativeMatches([Thin(7)], Some(7)) == [Thin(7)];
    var replayed := Settled(s, Some(7), 0);
    assert SteeringSecond(replayed) && !replayed.turn.value.settlement.completed && replayed.turn.value.request.kind == StartRequest
        && replayed.turn.value.clientId == Some(1) && replayed.turn.value.identity.nativeId == Some(7);
  }

  predicate OneMemberSteering(t: Turn) {
    |t.group.members| == 1 && t.group.members[0].input.steerable && t.group.steerInFlight
  }

  lemma ProvenAfterBuffering()
    ensures var s := Run(Init(CONFIG), BUFFERED); Awaiting(s, Buffers([Thin(7)], [])) && Proven(s)
  {
    Opened();
    TwoMore(Init(CONFIG), OPENING, TurnCompleted(Some(7), Thin(7)), TurnStarted(Some(7), Echo(Some(7), 1)));
    var s2 := Run(Init(CONFIG), OPENING);
    BuffersThin(s2, 7);
    ProvesRoot(Next(s2, TurnCompleted(Some(7), Thin(7))), Buffers([Thin(7)], []));
  }

  lemma {:induction false} ReplayedUnderSteer()
    ensures SteerOutlives(Run(Init(CONFIG), REPLAYED))
    ensures SettlesUnderSteer(Run(Init(CONFIG), REPLAYED[..5]), REPLAYED[5])
  {
    ProvenAfterBuffering();
    TwoMore(Init(CONFIG), BUFFERED, Enqueue(Message(2)), RootResponse(Some(7), 0));
    SteeredThenReplayed(Run(Init(CONFIG), BUFFERED));
    assert REPLAYED[..5] == BUFFERED + [Enqueue(Message(2))];
  }

  lemma SteeredThenReplayed(s: State)
    requires Awaiting(s, Buffers([Thin(7)], [])) && Proven(s)
    ensures var r := Next(s, Enqueue(Message(2)));
      SettlesUnderSteer(r, RootResponse(Some(7), 0)) && SteerOutlives(Next(r, RootResponse(Some(7), 0)))
  {
    SteersSecond(s);
    ResponseReplaysUnderSteer(Next(s, Enqueue(Message(2))));
  }

  /** The runner answers after its own fence: in either run, the late steer reply
      fences while the next input is being started, and that input then gets a
      final. */
  lemma {:induction false} FinalAfterFence(head: seq<Step>)
    requires head == RECONCILED || head == REPLAYED
    ensures SteerOutlives(Run(Init(CONFIG), head))
    ensures var fencing := head + AfterStaleSteer(Run(Init(CONFIG), head));
      && FencesTheWrongTurn(Run(Init(CONFIG), fencing[..|head| + 3]), fencing[|head| + 3])
      && Run(Init(CONFIG), fencing).fenced
      && |Run(Init(CONFIG), fencing + ANSWERED).finals| == |Run(Init(CONFIG), fencing).finals| + 1
  {
    ReconciledUnderSteer();
    ReplayedUnderSteer();
    OutlivedSteerFences(head);
  }

  lemma OutlivedSteerFences(head: seq<Step>)
    requires SteerOutlives(Run(Init(CONFIG), head))
    ensures var fencing := head + AfterStaleSteer(Run(Init(CONFIG), head));
      && FencesTheWrongTurn(Run(Init(CONFIG), fencing[..|head| + 3]), fencing[|head| + 3])
      && Run(Init(CONFIG), fencing).fenced
      && |Run(Init(CONFIG), fencing + ANSWERED).finals| == |Run(Init(CONFIG), fencing).finals| + 1
  {
    var s := Run(Init(CONFIG), head);
    var tail := AfterStaleSteer(s);
    StaleSteerFencesTheWrongTurn(s);
    RunConcat(Init(CONFIG), head, tail);
    RunConcat(Init(CONFIG), head, tail[..3]);
    assert (head + tail)[..|head| + 3] == head + tail[..3];
    FencedRunnerStillAnswers(Run(s, tail));
    RunConcat(Init(CONFIG), head + tail, ANSWERED);
  }

  // ---- an input lost -------------------------------------------------------

  /** The first message is answered under the second one's steer, whose reply then
      takes the second message off the queue for a group that is gone. */
  const LOST: seq<Step> := OVERTAKEN + [SteerReplied(SteerTurn(Some(7))), AfterTurn]

  const OVERTAKEN: seq<Step> := RECONCILED + [Finalize]

  lemma {:induction false} InputLost()
    ensures BarrierBroken(Run(Init(CONFIG), RECONCILED))
    ensures Run(Init(CONFIG), OVERTAKEN).finals != Run(Init(CONFIG), RECONCILED).finals
    ensures LosesInput(Run(Init(CONFIG), OVERTAKEN), LOST[7])
    ensures var s := Run(Init(CONFIG), LOST);
      && !s.fenced && s.point.Idle? && s.queue == [] && s.steer.None?
      && |s.received| == |s.finals| + 1 && !OneFinalEachInOrder(s)
  {
    ReconciledUnderSteer();
    var s := Run(Init(CONFIG), RECONCILED);
    RunShaped(CONFIG, RECONCILED);
    AnswerLeavesSteer(s);
    AnsweredInOrder();
    TwoMore(Init(CONFIG), OVERTAKEN, SteerReplied(SteerTurn(Some(7))), AfterTurn);
    SteerExpectsSeven();
    StaleAcceptanceLoses(Next(s, Finalize));
  }

  lemma AnsweredInOrder()
    ensures Run(Init(CONFIG), OVERTAKEN) == Next(Run(Init(CONFIG), RECONCILED), Finalize)
    ensures OneFinalEachInOrder(Run(Init(CONFIG), OVERTAKEN))
  {
    RunSnoc(Init(CONFIG), RECONCILED, Finalize);
    EveryInputOneFinalInOrder(CONFIG, OVERTAKEN);
  }

  lemma SteerExpectsSeven()
    ensures var s := Run(Init(CONFIG), RECONCILED);
      s.steer.Some? && s.steer.value.expected == 7 && s.queue != [] && s.queue[0] == s.steer.value.dispatch.input
  {
    PendingWaitReached();
    TwoMore(Init(CONFIG), WAITING, Enqueue(Message(2)), HistoryScanned([Echo(Some(7), 1)], 0));
    SteersWhileLookedUp(Run(Init(CONFIG), WAITING));
    ScanSettlesUnderSteer(Next(Run(Init(CONFIG), WAITING), Enqueue(Message(2))));
  }

  lemma AnswerLeavesSteer(s: State)
    requires SteerOutlives(s) && Shaped(s)
    ensures BarrierBroken(s) && Next(s, Finalize).finals != s.finals
    ensures var r := Next(s, Finalize);
      r.turn.None? && r.point.Returned? && !r.fenced && r.steer == s.steer && r.queue == s.queue && r.nativeActive == s.nativeActive
  {
    BrokenBarrierAnswers(s);
  }

  lemma StaleAcceptanceLoses(s: State)
    requires s.turn.None? && s.point.Returned? && !s.fenced && s.nativeActive.None? && OneFinalEachInOrder(s)
    requires s.steer.Some? && |s.queue| == 1 && s.queue[0] == s.steer.value.dispatch.input
    ensures var reply := SteerReplied(SteerTurn(Some(s.steer.value.expected)));
      var r := Next(Next(s, reply), AfterTurn);
      && LosesInput(s, reply)
      && !r.fenced && r.point.Idle? && r.queue == [] && r.steer.None?
      && |r.received| == |r.finals| + 1 && !OneFinalEachInOrder(r)
  {
    var s1 := SteerAccepted(s);
    assert s1.queue == [] && !Admits(s1);
    assert |InputsOf(s.finals) + Held(s) + s.queue| == |s.finals| + 1;
  }

  // ---- an input launched after the fence ---------------------------------------

  /** The second message has left the queue when its own late steer reply fences. */
  const DEQUEUED: seq<Step> := OVERTAKEN + [AfterTurn, SteerReplied(SteerTurn(Some(7)))]

  lemma {:induction false} LaunchedAfterFence()
    ensures var s := Run(Init(CONFIG), DEQUEUED);
      && s.fenced && LaunchesFenced(s, Launch) && !ResendsRoot(s, Launch)
      && Next(s, Launch).trace.sends == s.trace.sends + [StartSent(s.point.next)]
  {
    ReconciledUnderSteer();
    RunShaped(CONFIG, RECONCILED);
    AnswerLeavesSteer(Run(Init(CONFIG), RECONCILED));
    AnsweredInOrder();
    SteerExpectsSeven();
    TwoMore(Init(CONFIG), OVERTAKEN, AfterTurn, SteerReplied(SteerTurn(Some(7))));
    LateReplyFencesLaunch(Run(Init(CONFIG), OVERTAKEN));
  }

  lemma LateReplyFencesLaunch(s: State)
    requires s.turn.None? && s.point.Returned? && !s.fenced && s.nativeActive.None?
    requires s.steer.Some? && |s.queue| == 1
    ensures var r := Next(Next(s, AfterTurn), SteerReplied(SteerTurn(Some(s.steer.value.expected))));
      && r.fenced && r.point.Launching?
      && Next(r, Launch).trace.sends == r.trace.sends + [StartSent(r.point.next)]
  {
    var s1 := Next(s, AfterTurn);
    assert s1.point == Launching(s.queue[0]) && s1.queue == [] && s1.turn.None? && s1.nativeActive.None?;
  }

  // ---- an input merged behind the gate -----------------------------------------

  /** A running native turn. */
  function Running(id: Id): NativeTurn {
    NativeTurn(Some(id), InProgress, false, [], None)
  }

  /** A plain line waits for an autonomous turn; when that is over another starts
      before the line's own turn does. */
  const PARKED: seq<Step> := [TurnStarted(Some(5), Running(5)), Enqueue(Plain("report"))]
  const OVERTAKING: seq<Step> := PARKED + [TurnCompleted(Some(5), Thin(5)), TurnStarted(Some(6), Running(6))]

  lemma {:induction false} PlainMerged()
    ensures var s := Run(Init(CONFIG), PARKED);
      s.point.Idle? && |s.queue| == 1 && !s.queue[0].steerable && s.trace.sends == []
    ensures var s := Run(Init(CONFIG), OVERTAKING);
      MergesPlain(s, Launch) && Next(s, Launch).trace.sends == [SteerSent(s.point.next, 6)]
  {
    TwoMore(Init(CONFIG), [], TurnStarted(Some(5), Running(5)), Enqueue(Plain("report")));
    assert [] + PARKED == PARKED;
    TwoMore(Init(CONFIG), PARKED, TurnCompleted(Some(5), Thin(5)), TurnStarted(Some(6), Running(6)));
    Parks(Init(CONFIG), 5, Running(5), Plain("report"));
    Overtakes(Run(Init(CONFIG), PARKED), 5, Thin(5), 6, Running(6));
  }

  lemma Parks(s: State, id: Id, native: NativeTurn, line: Line)
    requires s.point.Idle? && s.turn.None? && s.queue == [] && !s.fenced && line.Plain? && s.trace.sends == []
    ensures var r := Next(Next(s, TurnStarted(Some(id), native)), Enqueue(line));
      && r.point.Idle? && r.turn.None? && r.queue == [Decode(s, line)] && !r.fenced
      && r.nativeActive == Some(id) && r.trace.sends == []
  {
  }

  lemma Overtakes(s: State, id: Id, ended: NativeTurn, other: Id, native: NativeTurn)
    requires s.point.Idle? && s.turn.None? && |s.queue| == 1 && !s.fenced && s.nativeActive == Some(id) && s.trace.sends == []
    requires !s.queue[0].steerable
    ensures var r := Next(Next(s, TurnCompleted(Some(id), ended)), TurnStarted(Some(other), native));
      MergesPlain(r, Launch) && Next(r, Launch).trace.sends == [SteerSent(r.point.next, other)]
  {
    CompletionGate(s, Some(id), ended);
    StartsBeforeLaunch(Next(s, TurnCompleted(Some(id), ended)), other, native);
  }

  lemma StartsBeforeLaunch(s: State, other: Id, native: NativeTurn)
    requires s.point.Launching? && s.turn.None? && !s.point.next.steerable && s.trace.sends == []
    ensures var r := Next(s, TurnStarted(Some(other), native));
      MergesPlain(r, Launch) && Next(r, Launch).trace.sends == [SteerSent(r.point.next, other)]
  {
    LaunchMergesExactly(Next(s, TurnStarted(Some(other), native)));
  }

  // ---- a grown group answered for its root alone -----------------------------

  /** Native turn 7 holds the first message and its answer only. */
  const ALONE := NativeTurn(Some(7), Finished, true, [UserMessage(Some(1)), FinalAnswer("first")], None)

  /** The second message joins the group while history is searched for the first,
      and the answer to the first then answers it. */
  const JOINED: seq<Step> := WAITING + [Enqueue(Message(2)), SteerReplied(SteerTurn(Some(7)))]

  lemma {:induction false} GroupAnsweredForItsRoot()
    ensures var s := Run(Init(CONFIG), JOINED); var lookup := HistoryScanned([ALONE], 0);
      && !s.fenced && s.turn.Some? && |s.turn.value.group.members| == 2 && AnswersRootAlone(s, lookup)
      && VerifyGroup(SentIds(s.turn.value.group.members), ALONE) == Mismatch(MemberMissing)
      && SettlesGrownGroup(Next(s, lookup)) && SettledText(Next(s, lookup).turn.value) == Text("first")
  {
    PairJoined();
    RootAnswerSettlesGroup(Run(Init(CONFIG), JOINED));
  }

  lemma PairJoined()
    ensures PairLookedUp(Run(Init(CONFIG), JOINED))
  {
    PendingWaitReached();
    TwoMore(Init(CONFIG), WAITING, Enqueue(Message(2)), SteerReplied(SteerTurn(Some(7))));
    SteersWhileLookedUp(Run(Init(CONFIG), WAITING));
    JoinsLookedUp(Next(Run(Init(CONFIG), WAITING), Enqueue(Message(2))));
  }

  /** Both messages are one group, and a lookup for the first still runs. */
  predicate PairLookedUp(s: State) {
    && !s.fenced && s.turn.Some? && s.turn.value.clientId == Some(1)
    && |s.turn.value.group.members| == 2 && SentIds(s.turn.value.group.members) == [1, 2]
    && s.turn.value.settlement.scan == SingleScan(true) && !s.turn.value.settlement.completed
  }

  lemma JoinsLookedUp(s: State)
    requires SteeredWhileLookedUp(s)
    ensures PairLookedUp(Next(s, SteerReplied(SteerTurn(Some(7)))))
  {
    var r := Next(s, SteerReplied(SteerTurn(Some(7))));
    assert r.queue == [];
    PairSent(s.turn.value.group.members, s.steer.value.dispatch);
  }

  lemma PairSent(root: seq<Dispatch>, second: Dispatch)
    requires |root| == 1 && root[0].clientId == Some(1) && second.clientId == Some(2)
    ensures SentIds(root + [second]) == [1, 2]
  {
    assert (root + [second])[..1] == root && root[..0] == [];
    assert SentIds(root) == [1];
  }

  lemma AloneLacksSecond()
    ensures Exact(ALONE, Some(1)) == [0] && Rebuild(ALONE, 0) == Text("first")
    ensures VerifyGroup([1, 2], ALONE) == Mismatch(MemberMissing)
  {
    SoleIndex(ALONE.items, 1, 0);
    assert ALONE.items[1..] == [FinalAnswer("first")];
    SecondIsMissing(ALONE.items);
  }

  lemma FirstIndexCarries(items: seq<Item>, clientId: Id)
    ensures IndexesOf(items, clientId) != [] ==> exists i :: 0 <= i < |items| && Carries(items[i], clientId)
  {
    var r := IndexesOf(items, clientId);
    if r != [] {
      assert r[0] in r;
    }
  }

  lemma SecondIsMissing(items: seq<Item>)
    requires IndexesOf(items, 1) == [0] && forall i :: 0 <= i < |items| ==> !Carries(items[i], 2)
    ensures VerifyFrom(items, [1, 2], -1) == Mismatch(MemberMissing)
  {
    FirstIndexCarries(items, 2);
    assert [1, 2][1..] == [2];
    assert VerifyFrom(items, [2], 0) == Mismatch(MemberMissing);
  }

  lemma RootAnswerSettlesGroup(s: State)
    requires PairLookedUp(s)
    ensures var lookup := HistoryScanned([ALONE], 0);
      && AnswersRootAlone(s, lookup)
      && VerifyGroup(SentIds(s.turn.value.group.members), ALONE) == Mismatch(MemberMissing)
      && SettlesGrownGroup(Next(s, lookup)) && SettledText(Next(s, lookup).turn.value) == Text("first")
  {
    AloneLacksSecond();
    SoleMatch(ALONE, Some(1));
    RootTurnSettlesGroup(s, [ALONE], ALONE);
  }

  lemma RootTurnSettlesGroup(s: State, history: seq<NativeTurn>, native: NativeTurn)
    requires PairLookedUp(s) && SingleMatches(history, Some(1)) == [native] && !Repeats(history, Some(1))
    requires Terminal(native) && Exact(native, Some(1)) == [0] && Rebuild(native, 0) == Text("first")
    ensures AnswersRootAlone(s, HistoryScanned(history, 0))
    ensures SettlesGrownGroup(Next(s, HistoryScanned(history, 0)))
    ensures SettledText(Next(s, HistoryScanned(history, 0)).turn.value) == Text("first")
  {
    RootTurnCompletes(s, native);
    assert Next(s, HistoryScanned(history, 0)) == CompleteFromNative(s, native, Some(0));
  }

  lemma RootTurnCompletes(s: State, native: NativeTurn)
    requires PairLookedUp(s) && Terminal(native) && Rebuild(native, 0) == Text("first")
    ensures var r := CompleteFromNative(s, native, Some(0));
      SettlesGrownGroup(r) && SettledText(r.turn.value) == Text("first")
  {
  }

  // ---- a contradicting completion that settles ------------------------------

  /** The response names native turn 7; then native turn 8 completes with the
      first message in it. */
  const OTHERWISE: seq<Step> := OPENING + [RootResponse(Some(7), 0), TurnCompleted(Some(8), Echo(Some(8), 1))]

  lemma {:induction false} ContradictionSettles()
    ensures var s := Run(Init(CONFIG), OTHERWISE);
      && !s.fenced && s.turn.Some? && s.turn.value.settlement.completed && s.turn.value.phase != Fenced
      && s.turn.value.identity.canonical == Some(7) && s.turn.value.identity.nativeId == Some(8)
  {
    Opened();
    TwoMore(Init(CONFIG), OPENING, RootResponse(Some(7), 0), TurnCompleted(Some(8), Echo(Some(8), 1)));
    ResponseBinds(Run(Init(CONFIG), OPENING));
    EchoIsExact(Some(8), 1);
    ExactCompletionAgreesOrFences(Next(Run(Init(CONFIG), OPENING), RootResponse(Some(7), 0)), 8, Echo(Some(8), 1));
  }

  lemma ResponseBinds(s: State)
    requires Awaiting(s, Buffers([], [])) && Unproven(s)
    ensures var r := Next(s, RootResponse(Some(7), 0));
      && !r.fenced && Unsettled(r) && r.turn.value.clientId == Some(1) && r.turn.value.identity.canonical == Some(7)
      && r.turn.value.request.accepted && r.turn.value.phase == Open && !InGroupMode(r.turn.value)
  {
  }

  // ---- a root resent after the fence ----------------------------------------

  /** Two exact starts contradict each other and fence; the captured Goal turn
      is then reported inactive, and the root is sent again. */
  const CONTRADICTED: seq<Step> := [
    TurnStarted(Some(5), Thin(5)), Enqueue(Message(1)), Launch, TurnStarted(Some(6), Echo(Some(6), 1)),
    TurnStarted(Some(7), Echo(Some(7), 1)), TurnCompleted(Some(7), Thin(7))]

  const INACTIVE := RootError(RpcFailure(true, true, false))

  /** The first message is being steered into Goal turn 5. */
  predicate SteersGoal(s: State) {
    && !s.fenced && s.point.AwaitRoot? && s.point.call.expected == Some(5) && !s.point.call.fellBack
    && s.turn.Some? && s.turn.value.clientId == Some(1) && s.turn.value.identity.nativeId == Some(5)
    && s.turn.value.request == Request(SteerRequest, false, false, true)
    && OneMember(s.turn.value) && !s.turn.value.settlement.completed && s.queue == []
  }

  lemma LaunchesIntoGoal()
    ensures var s := Next(Next(Next(Init(CONFIG), CONTRADICTED[0]), CONTRADICTED[1]), CONTRADICTED[2]);
      SteersGoal(s) && s.turn.value.identity.canonical.None?
  {
    var s1 := Next(Init(CONFIG), TurnStarted(Some(5), Thin(5)));
    assert s1.nativeActive == Some(5) && s1.queue == [] && s1.point.Idle?;
    var s2 := Next(s1, Enqueue(Message(1)));
    assert s2.point.Launching? && s2.queue == [];
  }

  lemma GoalProven(s: State)
    requires SteersGoal(s) && s.turn.value.identity.canonical.None?
    ensures var r := Next(s, TurnStarted(Some(6), Echo(Some(6), 1)));
      SteersGoal(r) && r.turn.value.identity.canonical == Some(6) && r.point == s.point
  {
    EchoIsExact(Some(6), 1);
    var t := s.turn.value;
    var proven := OpenStarted(t.(identity := t.identity.(canonical := Some(6), proof := Some(ExactStarted))), 6);
    assert Tracked(s.(nativeActive := Some(6)), 6, Echo(Some(6), 1))
        == UntrackedStart(WithTurn(s.(nativeActive := Some(6)), proven));
  }

  lemma ContradictionFences(s: State)
    requires SteersGoal(s) && s.turn.value.identity.canonical.None?
    ensures var r := Next(Next(Next(s, CONTRADICTED[3]), CONTRADICTED[4]), CONTRADICTED[5]);
      && r.fenced && r.nativeActive.None? && r.turn.Some? && r.point == s.point
  {
    EchoIsExact(Some(6), 1);
    EchoIsExact(Some(7), 1);
    GoalProven(s);
    var s4 := Next(s, TurnStarted(Some(6), Echo(Some(6), 1)));
    var s5 := Next(s4, TurnStarted(Some(7), Echo(Some(7), 1)));
    assert s5.fenced && s5.point == s.point && s5.nativeActive == Some(7) && OneMember(s5.turn.value)
        && !s5.turn.value.request.accepted;
  }

  lemma {:induction false} RootResentAfterFence()
    ensures var s := Run(Init(CONFIG), CONTRADICTED);
      Sealed(s) && ResendsRoot(s, INACTIVE) && Next(s, INACTIVE).trace.sends != s.trace.sends
  {
    RunFenceable(CONFIG, CONTRADICTED);
    ContradictedAndInactive();
    FallingBackResends(Run(Init(CONFIG), CONTRADICTED));
  }

  lemma GoalSteered()
    ensures SteersGoal(Run(Init(CONFIG), CONTRADICTED[..3]))
    ensures Run(Init(CONFIG), CONTRADICTED[..3]).turn.value.identity.canonical.None?
  {
    ThreeSteps(Init(CONFIG), CONTRADICTED[0], CONTRADICTED[1], CONTRADICTED[2]);
    LaunchesIntoGoal();
    assert CONTRADICTED[..3] == [CONTRADICTED[0], CONTRADICTED[1], CONTRADICTED[2]];
  }

  lemma ContradictedAndInactive()
    ensures var s := Run(Init(CONFIG), CONTRADICTED);
      && s.fenced && s.nativeActive.None? && s.turn.Some? && s.point.AwaitRoot?
      && s.point.call.expected.Some? && !s.point.call.fellBack
  {
    GoalSteered();
    var s := Run(Init(CONFIG), CONTRADICTED[..3]);
    ThreeSteps(s, CONTRADICTED[3], CONTRADICTED[4], CONTRADICTED[5]);
    assert CONTRADICTED[3..] == [CONTRADICTED[3], CONTRADICTED[4], CONTRADICTED[5]];
    RunConcat(Init(CONFIG), CONTRADICTED[..3], CONTRADICTED[3..]);
    assert CONTRADICTED == CONTRADICTED[..3] + CONTRADICTED[3..];
    ContradictionFences(s);
  }

  lemma FallingBackResends(s: State)
    requires s.point.AwaitRoot? && s.turn.Some? && s.point.call.expected.Some? && !s.point.call.fellBack && s.nativeActive.None?
    ensures ResendsRoot(s, INACTIVE) && Next(s, INACTIVE).trace.sends == s.trace.sends + [StartSent(s.point.call.input)]
  {
  }

  // ---- a stranded completion ------------------------------------------------

  /** The completion's own record has no id, so the response that names its turn
      neither settles the input nor looks for it. */
  const MISNAMED: seq<Step> := OPENING + [TurnCompleted(Some(7), Echo(None, 1)), RootResponse(Some(7), 0)]

  lemma {:induction false} CompletionStranded()
    ensures StrandsCompletion(Run(Init(CONFIG), MISNAMED[..3]), MISNAMED[3])
    ensures Stranded(Run(Init(CONFIG), MISNAMED)) && Run(Init(CONFIG), MISNAMED).point.AwaitDone?
    ensures Run(Init(CONFIG), MISNAMED).steer.None?
  {
    Opened();
    var a, b := TurnCompleted(Some(7), Echo(None, 1)), RootResponse(Some(7), 0);
    TwoMore(Init(CONFIG), OPENING, a, b);
    var s2 := Run(Init(CONFIG), OPENING);
    NamelessCompletionIsProof(s2);
    ResponseStrands(Next(s2, a));
    assert MISNAMED[..3] == OPENING + [a];
  }

  lemma NamelessCompletionIsProof(s: State)
    requires Awaiting(s, Buffers([], [])) && Unproven(s)
    ensures var r := Next(s, TurnCompleted(Some(7), Echo(None, 1)));
      && !r.fenced && r.point.AwaitRoot? && r.turn.Some? && r.steer.None? && OneMember(r.turn.value) && r.turn.value.group.closed
      && r.turn.value.buffers == Buffers([], []) && r.turn.value.identity.canonical == Some(7)
      && r.turn.value.settlement == Settlement(true, Some(Echo(None, 1)), NoScan, None, false, false)
  {
    EchoIsExact(None, 1);
  }

  lemma ResponseStrands(s: State)
    requires !s.fenced && s.point.AwaitRoot? && s.turn.Some? && s.steer.None? && OneMember(s.turn.value) && s.turn.value.group.closed
    requires s.turn.value.buffers == Buffers([], []) && s.turn.value.identity.canonical == Some(7)
    requires s.turn.value.settlement.completionSeen && !s.turn.value.settlement.completed && s.turn.value.settlement.scan == NoScan
    requires s.turn.value.settlement.terminal == Some(Echo(None, 1))
    ensures var r := Next(s, RootResponse(Some(7), 0));
      Stranded(r) && r.point.AwaitDone? && r.steer.None?
    ensures StrandsCompletion(s, RootResponse(Some(7), 0))
  {
  }

  // ---- an answer overwritten by a replayed note -----------------------------

  /** Both messages in order, then the answer to the second. */
  const WHOLE := NativeTurn(Some(7), Finished, true, [UserMessage(Some(1)), UserMessage(Some(2)), FinalAnswer("second")], None)

  const NOTED: seq<Step> := OPENING + [Progress(Some(7), FinalText("first"), 0), TurnStarted(Some(7), Echo(Some(7), 1))]

  const GROWING: seq<Step> := NOTED + [Enqueue(Message(2)), SteerReplied(SteerTurn(Some(7)))]

  const OVERWRITTEN: seq<Step> := GROWING + [TurnCompleted(Some(7), WHOLE), RootResponse(Some(7), 0)]

  const EARLY := Buffers([], [ProgressNote(7, FinalText("first"))])

  lemma BuffersNote(s: State)
    requires Awaiting(s, Buffers([], [])) && Unproven(s)
    ensures Awaiting(Next(s, Progress(Some(7), FinalText("first"), 0)), EARLY)
    ensures Unproven(Next(s, Progress(Some(7), FinalText("first"), 0)))
  {
  }

  /** Both messages are one group and the start response is still outstanding. */
  predicate GroupOfTwo(s: State, buffers: Buffers) {
    && !s.fenced && s.point.AwaitRoot? && s.turn.Some? && s.steer.None? && Proven(s)
    && SentIds(s.turn.value.group.members) == [1, 2] && SteerableRoot(s.turn.value)
    && |s.turn.value.group.members| == 2 && !s.turn.value.group.steerInFlight
    && s.turn.value.request.pending && s.turn.value.request.kind == StartRequest && s.turn.value.buffers == buffers
    && s.turn.value.clientId == Some(1) && s.turn.value.texts == Texts(Nothing, "")
    && s.turn.value.settlement == Settlement(false, None, NoScan, None, false, false)
  }

  lemma SecondJoins(s: State, buffers: Buffers)
    requires !s.fenced && s.point.AwaitRoot? && SteeringSecond(s) && Proven(s) && s.turn.value.epoch == s.epoch
    requires OneMemberSteering(s.turn.value) && s.turn.value.group.members[0].clientId == Some(1)
    requires s.turn.value.request.pending && s.turn.value.request.kind == StartRequest && s.turn.value.buffers == buffers
    requires s.turn.value.clientId == Some(1) && s.turn.value.texts == Texts(Nothing, "")
    requires s.turn.value.settlement == Settlement(false, None, NoScan, None, false, false)
    ensures GroupOfTwo(Next(s, SteerReplied(SteerTurn(Some(7)))), buffers)
  {
    var r := Next(s, SteerReplied(SteerTurn(Some(7))));
    assert r.queue == [];
    var members := r.turn.value.group.members;
    assert members == s.turn.value.group.members + [s.steer.value.dispatch];
    assert members[..1] == s.turn.value.group.members && members[..1][..0] == [];
    assert SentIds(members[..1]) == [1];
  }

  lemma SecondSteeredAndJoins(s: State, buffers: Buffers)
    requires Awaiting(s, buffers) && Proven(s)
    ensures GroupOfTwo(Next(Next(s, Enqueue(Message(2))), SteerReplied(SteerTurn(Some(7)))), buffers)
  {
    SteersSecond(s);
    SecondJoins(Next(s, Enqueue(Message(2))), buffers);
  }

  /** The whole group's completion waits for the start response. */
  predicate WholeBuffered(s: State) {
    && !s.fenced && s.point.AwaitRoot? && s.turn.Some?
    && s.turn.value.settlement.completionSeen && s.turn.value.settlement.terminal == Some(WHOLE)
    && !s.turn.value.settlement.completed && s.turn.value.settlement.scan == NoScan
    && s.turn.value.identity == Identity(Some(7), Some(7), Some(ExactStarted)) && s.turn.value.buffers == EARLY
    && SentIds(s.turn.value.group.members) == [1, 2] && SteerableRoot(s.turn.value)
    && |s.turn.value.group.members| == 2 && !s.turn.value.group.steerInFlight
  }

  lemma WholeGroupIsBuffered(s: State)
    requires GroupOfTwo(s, EARLY)
    ensures WholeBuffered(Next(s, TurnCompleted(Some(7), WHOLE)))
  {
  }

  lemma WholeVerifies()
    ensures VerifyGroup([1, 2], WHOLE) == Last(1)
    ensures Rebuild(WHOLE, 1) == Text("second")
  {
    PlacedVerifies(WHOLE.items, [1, 2], [0, 1], -1);
    assert WHOLE.items[2..] == [FinalAnswer("second")];
  }

  lemma NoteOverwrites(s: State)
    requires WholeBuffered(s)
    ensures SettleAfterResponse(Bound(s, Some(7))).turn.value.texts.final == Text("second")
    ensures Next(s, RootResponse(Some(7), 0)).turn.Some?
    ensures Next(s, RootResponse(Some(7), 0)).turn.value.settlement.completed
    ensures SettledText(Next(s, RootResponse(Some(7), 0)).turn.value) == Text("first")
  {
    WholeVerifies();
    var s1 := SettleAfterResponse(Bound(s, Some(7)));
    assert s1.turn.value.settlement.completed && s1.turn.value.buffers == EARLY && s1.turn.value.identity.nativeId == Some(7);
    var s2 := WithTurn(s1, s1.turn.value.(buffers := Buffers([], [])));
    var r := ReplayOne(s2, EARLY.notes[0], 0);
    assert r.turn.value.texts.final == Text("first") && r.turn.value.settlement.completed;
    assert EARLY.notes[1..] == [];
    assert ReplayAll(s2, EARLY.notes, 0) == ReplayAll(r, [], 0) == r;
  }

  lemma ProvenAfterNote()
    ensures var s := Run(Init(CONFIG), NOTED);
      Awaiting(s, EARLY) && Proven(s)
  {
    Opened();
    TwoMore(Init(CONFIG), OPENING, Progress(Some(7), FinalText("first"), 0), TurnStarted(Some(7), Echo(Some(7), 1)));
    BuffersNote(Run(Init(CONFIG), OPENING));
    ProvesRoot(Next(Run(Init(CONFIG), OPENING), Progress(Some(7), FinalText("first"), 0)), EARLY);
  }

  lemma GroupGrown()
    ensures GroupOfTwo(Run(Init(CONFIG), GROWING), EARLY)
    ensures !Run(Init(CONFIG), GROWING).turn.value.settlement.completionSeen
  {
    ProvenAfterNote();
    TwoMore(Init(CONFIG), NOTED, Enqueue(Message(2)), SteerReplied(SteerTurn(Some(7))));
    SecondSteeredAndJoins(Run(Init(CONFIG), NOTED), EARLY);
  }

  /** The group settles on the answer to the second message; the replayed note
      then replaces it with what was said before the second message. */
  lemma {:induction false} AnswerOverwritten()
    ensures Run(Init(CONFIG), OVERWRITTEN).turn.Some?
    ensures Run(Init(CONFIG), OVERWRITTEN).turn.value.settlement.completed
    ensures SettledText(Run(Init(CONFIG), OVERWRITTEN).turn.value) == Text("first")
    ensures SettleAfterResponse(Bound(Run(Init(CONFIG), OVERWRITTEN[..7]), Some(7))).turn.value.texts.final == Text("second")
  {
    var head := GROWING + [TurnCompleted(Some(7), WHOLE)];
    GroupReported();
    NoteOverwrites(Run(Init(CONFIG), head));
    RunSnoc(Init(CONFIG), head, RootResponse(Some(7), 0));
    assert OVERWRITTEN[..7] == head && OVERWRITTEN == head + [RootResponse(Some(7), 0)];
  }

  lemma GroupReported()
    ensures WholeBuffered(Run(Init(CONFIG), GROWING + [TurnCompleted(Some(7), WHOLE)]))
  {
    GroupGrown();
    WholeGroupIsBuffered(Run(Init(CONFIG), GROWING));
    RunSnoc(Init(CONFIG), GROWING, TurnCompleted(Some(7), WHOLE));
  }

  // ---- a grown group answered from an early completion -------------------------

  /** Native turn 7, reported in full with a message of neither input. */
  const STRANGE := NativeTurn(Some(7), Finished, true, [UserMessage(Some(9))], None)

  const HELD: seq<Step> := OPENING + [TurnCompleted(Some(7), STRANGE), TurnStarted(Some(7), Echo(Some(7), 1))]

  const EARLY_GROWN: seq<Step> := HELD + [Enqueue(Message(2)), SteerReplied(SteerTurn(Some(7)))]

  lemma StrangeHoldsNeither()
    ensures Exact(STRANGE, Some(1)) == [] && VerifyGroup([1, 2], STRANGE) == Mismatch(MemberMissing)
  {
    FirstIndexCarries(STRANGE.items, 1);
  }

  lemma StrangeIsHeld()
    ensures var s := Run(Init(CONFIG), HELD); Awaiting(s, Buffers([STRANGE], [])) && Proven(s)
  {
    Opened();
    StrangeHoldsNeither();
    TwoMore(Init(CONFIG), OPENING, TurnCompleted(Some(7), STRANGE), TurnStarted(Some(7), Echo(Some(7), 1)));
    BuffersCompletion(Run(Init(CONFIG), OPENING), 7, STRANGE);
    ProvesRoot(Next(Run(Init(CONFIG), OPENING), TurnCompleted(Some(7), STRANGE)), Buffers([STRANGE], []));
  }

  lemma SoleBuffered(native: NativeTurn, clientId: Option<Id>)
    requires Exact(native, clientId) == []
    ensures ExactMatches([native], clientId) == []
    ensures NativeMatches([native], native.id) == [native]
  {
    assert [native][..0] == [];
  }

  /** The response settles the group of two from that turn. */
  lemma {:induction false} GroupAnsweredFromStranger()
    ensures var s := Run(Init(CONFIG), EARLY_GROWN); var response := RootResponse(Some(7), 0);
      && !s.fenced && s.turn.Some? && SentIds(s.turn.value.group.members) == [1, 2]
      && VerifyGroup([1, 2], STRANGE) == Mismatch(MemberMissing)
      && AnswersFromEarly(s, response) && SettlesGrownGroup(Next(s, response))
      && !GroupAnswer(s.turn.value.texts, Next(s, response).turn.value)
  {
    StrangeIsHeld();
    StrangeHoldsNeither();
    TwoMore(Init(CONFIG), HELD, Enqueue(Message(2)), SteerReplied(SteerTurn(Some(7))));
    SecondSteeredAndJoins(Run(Init(CONFIG), HELD), Buffers([STRANGE], []));
    EarlySettlesGroup(Run(Init(CONFIG), EARLY_GROWN), [STRANGE], STRANGE);
  }

  lemma EarlySettlesGroup(s: State, completions: seq<NativeTurn>, native: NativeTurn)
    requires GroupOfTwo(s, Buffers(completions, [])) && completions == [native]
    requires Exact(native, Some(1)) == [] && native.id == Some(7) && Terminal(native) && native.error.None?
    ensures var r := Next(s, RootResponse(Some(7), 0));
      AnswersFromEarly(s, RootResponse(Some(7), 0)) && SettlesGrownGroup(r) && !GroupAnswer(s.turn.value.texts, r.turn.value)
  {
    SoleBuffered(native, Some(1));
  }
}
