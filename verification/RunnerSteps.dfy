/**
 The ordered-steer driver of the Codex App runner, as a state machine: one
 `Next` case per handler, each running up to its next suspension point.

 `State` is the runner's module-level state plus the histories of what it
 received and emitted. Server responses, notifications and the clock arrive as
 `Step` values in any order; a step that is not enabled leaves the state alone.
 */
module RunnerSteps {
  import opened Options
  import opened GroupIdentity

  // ---------------------------------------------------------------------------
  // Data
  // ---------------------------------------------------------------------------

  /** The structured input sidecar; only its client id matters here. */
  datatype Sidecar = Sidecar(clientId: Option<Id>)

  /** A decoded control line, or a plain terminal line. */
  datatype Line =
    | Framed(content: string, replyTurnId: Option<Id>, sidecar: Option<Sidecar>, steerable: bool)
    | Plain(content: string)

  /** A queued input. `serial` is the object identity the source compares by. */
  datatype Input = Input(serial: nat, content: string, replyTurnId: Option<Id>, sidecar: Option<Sidecar>, steerable: bool)

  datatype Dispatch = Dispatch(input: Input, clientId: Option<Id>)

  datatype RequestKind = StartRequest | SteerRequest
  datatype Phase = Starting | Open | Closing | Fenced
  datatype Proof = ExactStarted | ExactCompleted | StartResponse | GoalSnapshot

  /** Which history lookup owns the turn's settlement, if any. */
  datatype Scan = NoScan | SingleScan(keepPending: bool) | GroupScan

  datatype ProgressEffect = Quiet | Delta(text: string) | FinalText(text: string)

  datatype Notification =
    | StartedNote(id: Id, turn: NativeTurn)
    | ProgressNote(id: Id, effect: ProgressEffect)

  /** The root RPC: accepted, still awaiting its first response, and whether
      the server was seen to start the turn. */
  datatype Request = Request(kind: RequestKind, accepted: bool, pending: bool, serverStarted: bool)

  datatype Identity = Identity(nativeId: Option<Id>, canonical: Option<Id>, proof: Option<Proof>)

  /** What arrived before the root response. */
  datatype Buffers = Buffers(completions: seq<NativeTurn>, notes: seq<Notification>)

  datatype Texts = Texts(final: Answer, agent: string)

  /** The ordered accepted group and its one in-flight follow-up steer. */
  datatype Group = Group(members: seq<Dispatch>, steerInFlight: bool, closed: bool)

  datatype Settlement = Settlement(
    completionSeen: bool,
    terminal: Option<NativeTurn>,
    scan: Scan,
    deadline: Option<int>,
    conflictReported: bool,
    completed: bool)

  datatype Turn = Turn(
    epoch: nat,
    clientId: Option<Id>,
    phase: Phase,
    request: Request,
    identity: Identity,
    buffers: Buffers,
    texts: Texts,
    group: Group,
    settlement: Settlement)

  /** The suspended `tryAdmitSteer` call and the turn epoch it captured. */
  datatype SteerCall = SteerCall(epoch: nat, dispatch: Dispatch, expected: Id)

  /** The suspended root RPC of `runTurn`. */
  datatype RootCall = RootCall(input: Input, expected: Option<Id>, fellBack: bool, retried: bool, structured: bool)

  /** Where the drain loop and the `runTurn` it awaits are suspended. */
  datatype Point = Idle | Launching(next: Input) | AwaitRoot(call: RootCall) | AwaitDone | Returned

  datatype Disposition = Superseded | Real | RunnerFailure
  datatype Final = Final(input: Input, disposition: Disposition, content: Answer)
  datatype Send = StartSent(input: Input) | SteerSent(input: Input, target: Id)

  /** Evidence the keep-pending deadline is computed from. */
  datatype Sign = Armed(at: int) | Progressed(at: int)

  datatype Config = Config(cleanInput: bool, clientIds: bool, keepPendingWindow: int)

  /** What the runner emitted besides finals, in order. */
  datatype Trace = Trace(
    sends: seq<Send>,
    steered: seq<Input>,
    busyMarkers: nat,
    idleMarkers: nat,
    conflicts: seq<Reason>,
    signs: seq<Sign>)

  datatype State = State(
    config: Config,
    queue: seq<Input>,
    point: Point,
    turn: Option<Turn>,
    epoch: nat,
    nativeActive: Option<Id>,
    steer: Option<SteerCall>,
    fenced: bool,
    cleanInputUnsupported: bool,
    idleTimer: bool,
    received: seq<Input>,
    finals: seq<Final>,
    trace: Trace)

  /** How a rejected root RPC classifies. */
  datatype RpcFailure = RpcFailure(serverError: bool, expectedTurnInactive: bool, capability: bool)

  datatype SteerReply = SteerTurn(turnId: Option<Id>) | SteerRejected | SteerUnknown

  datatype Step =
    | Enqueue(line: Line)
    | Launch
    | RootResponse(id: Option<Id>, now: int)
    | RootError(failure: RpcFailure)
    | SteerReplied(reply: SteerReply)
    | TurnStarted(id: Option<Id>, turn: NativeTurn)
    | TurnCompleted(id: Option<Id>, turn: NativeTurn)
    | Progress(id: Option<Id>, effect: ProgressEffect, now: int)
    | HistoryScanned(history: seq<NativeTurn>, now: int)
    | HistoryFailed
    | Finalize
    | AfterTurn
    | IdleTimerFired
    | Reauthenticated

  function Init(config: Config): State {
    State(config, [], Idle, None, 0, None, None, false, false, false, [], [], Trace([], [], 0, 0, [], []))
  }

  // ---------------------------------------------------------------------------
  // Reading the state
  // ---------------------------------------------------------------------------

  /** The client id the request for `input` carries (and is attributed by). */
  function RequestClientId(s: State, input: Input): Option<Id> {
    if input.sidecar.None? then None
    else if !s.cleanInputUnsupported && s.config.clientIds && input.replyTurnId.Some? then input.replyTurnId
    else input.sidecar.value.clientId
  }

  function SentIds(group: seq<Dispatch>): seq<Id> {
    if group == [] then []
    else
      var before := SentIds(group[..|group| - 1]);
      var clientId := group[|group| - 1].clientId;
      if clientId.Some? then before + [clientId.value] else before
  }

  function Exact(native: NativeTurn, clientId: Option<Id>): seq<nat> {
    if clientId.None? then [] else ExactIndexes(native, clientId.value)
  }

  predicate SteerableRoot(t: Turn) {
    t.group.members != [] && t.group.members[0].input.steerable
  }

  predicate InGroupMode(t: Turn) {
    SteerableRoot(t) && (t.group.steerInFlight || |t.group.members| > 1)
  }

  predicate ExactlyProven(t: Turn) {
    t.identity.proof == Some(ExactStarted) || t.identity.proof == Some(ExactCompleted)
  }

  predicate CanSteer(s: State, t: Turn, head: Input) {
    && !s.fenced
    && !t.settlement.completed
    && t.phase != Fenced
    && t.phase != Closing
    && !t.group.closed
    && !t.group.steerInFlight
    && s.steer.None?
    && t.identity.canonical.Some?
    && SteerableRoot(t)
    && head.steerable
  }

  predicate Parked(s: State) {
    s.queue != [] && s.nativeActive.Some? && !s.queue[0].steerable
  }

  /** The steer reply still belongs to the active turn object. */
  predicate SteerIsLive(s: State) {
    s.steer.Some? && s.turn.Some? && s.turn.value.epoch == s.steer.value.epoch
  }

  // ---------------------------------------------------------------------------
  // Shared effects
  // ---------------------------------------------------------------------------

  /** No input is received and no final emitted, and a fence stays up. */
  predicate Keeps(s: State, r: State) {
    r.received == s.received && r.finals == s.finals && (s.fenced ==> r.fenced)
  }

  /** Once fenced, nothing is sent to app-server and no idle state published. */
  predicate Hushed(s: State, r: State) {
    s.fenced ==> r.trace.sends == s.trace.sends && r.trace.idleMarkers == s.trace.idleMarkers
  }

  /** The turn stays active under the canonical id it has been proven to have. */
  predicate SameCanonical(s: State, r: State) {
    && s.turn.Some? && r.turn.Some?
    && r.turn.value.epoch == s.turn.value.epoch
    && r.turn.value.identity.canonical == s.turn.value.identity.canonical
  }

  predicate KeepsProof(s: State, r: State) {
    s.turn.Some? && s.turn.value.identity.canonical.Some? ==> SameCanonical(s, r)
  }

  /** What a buffered completion's settlement depends on is left alone, unless
      the turn is settled. */
  predicate KeepsAccount(s: State, r: State) {
    s.turn.Some? ==> r.turn.Some? && TurnKeepsAccount(s.turn.value, r.turn.value)
  }

  predicate TurnKeepsAccount(t: Turn, u: Turn) {
    || u.settlement.completed
    || (&& !t.settlement.completed
        && u.settlement.completionSeen == t.settlement.completionSeen
        && u.settlement.terminal == t.settlement.terminal
        && (t.settlement.scan != NoScan ==> u.settlement.scan != NoScan)
        && u.request.pending == t.request.pending
        && u.group.members == t.group.members
        && (t.group.steerInFlight ==> u.group.steerInFlight)
        && (ExactlyProven(t) ==> ExactlyProven(u)))
  }

  function DeadlineOf(s: State): Option<int> {
    if s.turn.Some? then s.turn.value.settlement.deadline else None
  }

  /** The keep-pending deadline, if it survives, is untouched. */
  predicate SameWatch(s: State, r: State) {
    && r.config == s.config && r.trace.signs == s.trace.signs
    && (DeadlineOf(r).None? || DeadlineOf(r) == DeadlineOf(s))
  }

  /** The keep-pending deadline is one window after the last recorded sign. */
  predicate Watched(s: State) {
    DeadlineOf(s).Some? ==>
      && s.trace.signs != []
      && DeadlineOf(s).value == s.trace.signs[|s.trace.signs| - 1].at + s.config.keepPendingWindow
  }

  function Sent(trace: Trace, send: Send): Trace {
    trace.(sends := trace.sends + [send])
  }

  function Marked(trace: Trace, busy: bool): Trace {
    if busy then trace.(busyMarkers := trace.busyMarkers + 1) else trace.(idleMarkers := trace.idleMarkers + 1)
  }

  function Signed(trace: Trace, sign: Sign): Trace {
    trace.(signs := trace.signs + [sign])
  }

  function WithTurn(s: State, t: Turn): State {
    s.(turn := Some(t))
  }

  function Done(t: Turn): Turn {
    t.(settlement := t.settlement.(completed := true))
  }

  /** `nativeActiveTurnId` is released when it still names `id`. */
  function Released(s: State, id: Option<Id>): Option<Id> {
    if id.Some? && s.nativeActive == id then None else s.nativeActive
  }

  /** `fenceUnknown` for the active turn. */
  function Fence(s: State): (r: State)
    ensures Keeps(s, r) && Hushed(s, r) && SameWatch(s, r) && KeepsProof(s, r)
    ensures KeepsAccount(s, r)
  {
    if s.fenced then s
    else if s.turn.Some? then s.(fenced := true, turn := Some(s.turn.value.(phase := Fenced)))
    else s.(fenced := true)
  }

  function FenceAndSettle(s: State): (r: State)
    requires s.turn.Some?
    ensures r.turn.Some?
    ensures Keeps(s, r) && Hushed(s, r) && SameWatch(s, r) && KeepsProof(s, r)
    ensures KeepsAccount(s, r)
  {
    var f := Fence(s);
    WithTurn(f, Done(f.turn.value))
  }

  function SettleRunnerState(s: State): (r: State)
    ensures Keeps(s, r) && Hushed(s, r) && SameWatch(s, r) && KeepsProof(s, r)
    ensures KeepsAccount(s, r)
  {
    if s.fenced then s
    else if s.nativeActive.Some? then s.(idleTimer := false, trace := Marked(s.trace, true))
    else s.(idleTimer := true)
  }

  /** The text a single-turn settlement leaves behind. */
  function CompletedText(t: Turn, native: NativeTurn, exactIndex: Option<nat>): Answer {
    if exactIndex.Some? then Rebuild(native, exactIndex.value)
    else if native.error.Some? && t.texts.final == Nothing then NativeFailure(native.error.value)
    else t.texts.final
  }

  function CompleteFromNative(s: State, native: NativeTurn, exactIndex: Option<nat>): (r: State)
    requires s.turn.Some?
    ensures r.turn.Some?
    ensures Keeps(s, r) && Hushed(s, r) && SameWatch(s, r) && KeepsProof(s, r)
    ensures KeepsAccount(s, r)
  {
    var t := s.turn.value;
    if t.settlement.completed || !Terminal(native) then s
    else
      s.(turn := Some(CompletedOn(t, native, exactIndex)), nativeActive := Released(s, native.id))
  }

  function CompletedOn(t: Turn, native: NativeTurn, exactIndex: Option<nat>): Turn {
    Done(t).(
      texts := Texts(CompletedText(t, native, exactIndex), if exactIndex.Some? then "" else t.texts.agent),
      identity := t.identity.(nativeId := if native.id.Some? then native.id else t.identity.nativeId))
  }

  function ReportConflict(s: State, reason: Reason): (r: State)
    requires s.turn.Some?
    ensures r.turn.Some?
    ensures Keeps(s, r) && Hushed(s, r) && SameWatch(s, r) && KeepsProof(s, r)
    ensures KeepsAccount(s, r)
  {
    var t := s.turn.value;
    if t.settlement.conflictReported then s
    else
      s.(turn := Some(Conflicted(t, reason)), nativeActive := Released(s, t.identity.nativeId), trace := s.trace.(conflicts := s.trace.conflicts + [reason]))
  }

  /** The identity error is the answer; no model text is kept. */
  function Conflicted(t: Turn, reason: Reason): Turn {
    t.(texts := Texts(Conflict(reason), ""), settlement := t.settlement.(conflictReported := true, completed := true))
  }

  function SettleSteered(s: State, native: NativeTurn): (r: State)
    requires s.turn.Some?
    ensures r.turn.Some?
    ensures Keeps(s, r) && Hushed(s, r) && SameWatch(s, r) && KeepsProof(s, r)
    ensures KeepsAccount(s, r)
  {
    var t := s.turn.value;
    var verdict := VerifyGroup(SentIds(t.group.members), native);
    if t.settlement.completed then s
    else if verdict.Mismatch? then ReportConflict(s, verdict.reason)
    else s.(turn := Some(ClosedOn(t, native, verdict)), nativeActive := Released(s, native.id))
  }

  /** The group is answered by the tail of `native`, or by what was streamed. */
  function ClosedOn(t: Turn, native: NativeTurn, verdict: Verdict): Turn {
    t.(phase := Closing,
       texts := if verdict.Last? then Texts(Rebuild(native, verdict.index), "") else t.texts,
       settlement := t.settlement.(terminal := Some(native), completed := true))
  }

  function StartGroupScan(s: State): (r: State)
    requires s.turn.Some?
    ensures r.turn.Some?
    ensures Keeps(s, r) && Hushed(s, r) && SameWatch(s, r) && KeepsProof(s, r)
    ensures KeepsAccount(s, r)
  {
    var t := s.turn.value;
    if t.settlement.scan != NoScan || t.settlement.completed then s else WithTurn(s, t.(settlement := t.settlement.(scan := GroupScan)))
  }

  function StartSingleScan(s: State, keepPending: bool, now: int): (r: State)
    requires s.turn.Some?
    ensures r.turn.Some?
    ensures !keepPending ==> SameWatch(s, r)
    ensures Keeps(s, r) && Hushed(s, r) && KeepsProof(s, r)
    ensures KeepsAccount(s, r)
  {
    var t := s.turn.value;
    var arms := keepPending && t.identity.nativeId.Some?;
    if t.settlement.scan != NoScan || t.settlement.completed then s
    else if t.clientId.None? then ReportConflict(s, LegacyInput)
    else
      var waiting := t.settlement.(
        scan := SingleScan(keepPending),
        deadline := if arms then Some(now + s.config.keepPendingWindow) else t.settlement.deadline);
      s.(turn := Some(t.(settlement := waiting)), trace := if arms then Signed(s.trace, Armed(now)) else s.trace)
  }

  /** Route a buffered terminal turn by identity. */
  function SettleBuffered(s: State): (r: State)
    requires s.turn.Some? && s.turn.value.settlement.terminal.Some?
    ensures r.turn.Some?
    ensures Keeps(s, r) && Hushed(s, r) && SameWatch(s, r) && KeepsProof(s, r)
    ensures KeepsAccount(s, r)
  {
    var t := s.turn.value;
    if t.settlement.terminal.value.id.Some? && t.settlement.terminal.value.id == t.identity.canonical
    then SettleSteered(s, t.settlement.terminal.value)
    else StartGroupScan(s)
  }

  predicate CanResume(s: State)
    requires s.turn.Some?
  {
    var t := s.turn.value;
    && !t.settlement.completed && InGroupMode(t) && t.settlement.completionSeen && t.settlement.terminal.Some?
    && !t.group.steerInFlight && !t.request.pending
  }

  function ResumeBuffered(s: State): (r: State)
    requires s.turn.Some?
    ensures r.turn.Some?
    ensures Keeps(s, r) && Hushed(s, r) && SameWatch(s, r) && KeepsProof(s, r)
    ensures KeepsAccount(s, r)
  {
    if CanResume(s) then SettleBuffered(s) else s
  }

  predicate Admits(s: State) {
    s.turn.Some? && s.queue != [] && CanSteer(s, s.turn.value, s.queue[0])
  }

  function TryAdmit(s: State): (r: State)
    ensures r.turn.Some? <==> s.turn.Some?
    ensures Keeps(s, r) && Hushed(s, r) && SameWatch(s, r) && KeepsProof(s, r)
    ensures KeepsAccount(s, r)
  {
    if !Admits(s) then s
    else
      var t := s.turn.value;
      var head := s.queue[0];
      var call := SteerCall(t.epoch, Dispatch(head, RequestClientId(s, head)), t.identity.canonical.value);
      s.(turn := Some(t.(group := t.group.(steerInFlight := true))), steer := Some(call), trace := Sent(s.trace, SteerSent(head, call.expected)))
  }

  // ---------------------------------------------------------------------------
  // The drain loop
  // ---------------------------------------------------------------------------

  function DrainLoop(s: State): (r: State)
    ensures r.turn == s.turn
    ensures Keeps(s, r) && Hushed(s, r) && SameWatch(s, r) && KeepsProof(s, r)
    ensures KeepsAccount(s, r)
  {
    if s.queue == [] || s.fenced || Parked(s) then s.(point := Idle)
    else s.(queue := s.queue[1..], point := Launching(s.queue[0]))
  }

  function Drain(s: State): (r: State)
    ensures r.turn == s.turn
    ensures Keeps(s, r) && Hushed(s, r) && SameWatch(s, r) && KeepsProof(s, r)
    ensures KeepsAccount(s, r)
  {
    if s.point != Idle then s else DrainLoop(s)
  }

  /** The tail of one drain iteration, then the loop test. */
  function Drained(s: State): (r: State)
    ensures r.turn == s.turn
    ensures Keeps(s, r) && Hushed(s, r) && SameWatch(s, r) && KeepsProof(s, r)
    ensures KeepsAccount(s, r)
  {
    DrainLoop(if s.queue == [] || Parked(s) then SettleRunnerState(s) else s)
  }

  function Decode(s: State, line: Line): Input {
    match line
    case Framed(content, reply, sidecar, steerable) =>
      Input(|s.received|, content, if reply.None? && sidecar.Some? then sidecar.value.clientId else reply, sidecar, steerable)
    case Plain(content) => Input(|s.received|, content, None, None, false)
  }

  function Pushed(s: State, line: Line): State {
    s.(queue := s.queue + [Decode(s, line)], received := s.received + [Decode(s, line)])
  }

  function OnEnqueue(s: State, line: Line): (r: State)
    ensures SameWatch(s, r) && KeepsProof(s, r) && KeepsAccount(s, r)
    ensures r.turn.Some? <==> s.turn.Some?
  {
    Drain(if line.Framed? then TryAdmit(Pushed(s, line)) else Pushed(s, line))
  }

  function OnLaunch(s: State): (r: State)
    requires s.point.Launching?
    ensures Keeps(s, r) && SameWatch(s, r)
  {
    var input := s.point.next;
    var expected := s.nativeActive;
    var clientId := RequestClientId(s, input);
    var t := Turn(
      s.epoch + 1, clientId, Starting,
      Request(if expected.Some? then SteerRequest else StartRequest, false, expected.None?, expected.Some?),
      Identity(expected, None, None), Buffers([], []), Texts(Nothing, ""),
      Group([Dispatch(input, clientId)], false, false),
      Settlement(false, None, NoScan, None, false, false));
    var call := RootCall(input, expected, false, false, input.sidecar.Some? && !s.cleanInputUnsupported && s.config.cleanInput);
    s.(turn := Some(t), epoch := s.epoch + 1, point := AwaitRoot(call), trace := Sent(s.trace, RootSend(call)))
  }

  function RootSend(call: RootCall): Send {
    if call.expected.Some? then SteerSent(call.input, call.expected.value) else StartSent(call.input)
  }

  // ---------------------------------------------------------------------------
  // Notifications
  // ---------------------------------------------------------------------------

  /** First exact proof wins; the flag says whether the caller may go on. */
  function ProveExact(s: State, id: Id, proof: Proof): (State, bool)
    requires s.turn.Some?
  {
    var t := s.turn.value;
    if t.identity.canonical.None? then (WithTurn(s, t.(identity := t.identity.(canonical := Some(id), proof := Some(proof)))), true)
    else if t.identity.canonical == Some(id) then (s, true)
    else (FenceAndSettle(s), false)
  }

  /** An exact `turn/started` also names the native turn and opens the group. */
  function OpenStarted(t: Turn, id: Id): Turn {
    t.(identity := t.identity.(nativeId := if t.identity.nativeId.None? then Some(id) else t.identity.nativeId),
       phase := if t.phase == Starting then Open else t.phase)
  }

  function UntrackedStart(s: State): State {
    s.(idleTimer := false, trace := Marked(s.trace, true))
  }

  predicate AlreadyBuffered(t: Turn, id: Id) {
    exists k :: 0 <= k < |t.buffers.notes| && t.buffers.notes[k].StartedNote? && t.buffers.notes[k].id == id
  }

  /** The part of `turn/started` after any exact proof. */
  function TrackStarted(s: State, id: Id, native: NativeTurn): (r: State)
    requires s.turn.Some?
    ensures r.turn.Some?
    ensures Keeps(s, r) && Hushed(s, r) && SameWatch(s, r) && KeepsProof(s, r)
    ensures KeepsAccount(s, r)
  {
    var t := s.turn.value;
    if t.identity.nativeId == Some(id) then
      var seen := WithTurn(s, t.(request := t.request.(serverStarted := true)));
      if ExactlyProven(t) && !t.settlement.completed then TryAdmit(seen) else seen
    else if !t.request.accepted && t.request.kind == StartRequest then
      if AlreadyBuffered(t, id) then s
      else WithTurn(s, t.(buffers := t.buffers.(notes := t.buffers.notes + [StartedNote(id, native)])))
    else UntrackedStart(s)
  }

  function OnStarted(s: State, id: Option<Id>, native: NativeTurn, replayed: bool): (r: State)
    ensures r.turn.Some? <==> s.turn.Some?
    ensures Keeps(s, r) && Hushed(s, r) && SameWatch(s, r) && KeepsProof(s, r)
    ensures KeepsAccount(s, r)
  {
    var s1 := if id.Some? && (!replayed || s.nativeActive.None? || s.nativeActive == id) then s.(nativeActive := id) else s;
    if s1.turn.None? || id.None? then UntrackedStart(s1) else Tracked(s1, id.value, native)
  }

  /** `turn/started` while a turn is active. */
  function Tracked(s: State, id: Id, native: NativeTurn): (r: State)
    requires s.turn.Some?
    ensures r.turn.Some?
    ensures Keeps(s, r) && Hushed(s, r) && SameWatch(s, r) && KeepsProof(s, r)
    ensures KeepsAccount(s, r)
  {
    if |Exact(native, s.turn.value.clientId)| != 1 then TrackStarted(s, id, native)
    else
      var (s1, proceed) := ProveExact(s, id, ExactStarted);
      if !proceed then s1
      else TrackStarted(WithTurn(s1, OpenStarted(s1.turn.value, id)), id, native)
  }

  function Recorded(t: Turn, native: NativeTurn): Turn {
    t.(group := t.group.(closed := true), settlement := t.settlement.(completionSeen := true, terminal := Some(native)))
  }

  /** A completion that may race an outstanding RPC is recorded, preferring a
      canonical candidate over a foreign one. */
  function BufferCompletion(t: Turn, id: Option<Id>, native: NativeTurn): Turn {
    var buffered := if t.settlement.terminal.Some? then t.settlement.terminal.value.id else None;
    var keep := t.settlement.terminal.Some? && id != t.identity.canonical && buffered == t.identity.canonical;
    Recorded(t, if keep then t.settlement.terminal.value else native)
  }

  function GroupCompleted(s: State, id: Option<Id>, native: NativeTurn): (r: State)
    requires s.turn.Some?
    ensures Keeps(s, r) && Hushed(s, r) && SameWatch(s, r) && KeepsProof(s, r)
  {
    var t := BufferCompletion(s.turn.value, id, native);
    var s1 := WithTurn(s, t);
    if t.group.steerInFlight || t.request.pending then s1
    else if t.identity.canonical.Some? && id == t.identity.canonical then SettleSteered(s1, native)
    else StartGroupScan(s1)
  }

  /** An exact completion before the start response is a proof, not a settlement. */
  predicate Upgrades(t: Turn, id: Option<Id>, native: NativeTurn) {
    && |Exact(native, t.clientId)| == 1
    && !t.request.accepted && t.request.pending && SteerableRoot(t) && id.Some?
  }

  function SingleCompleted(s: State, id: Option<Id>, native: NativeTurn): (r: State)
    requires s.turn.Some?
    ensures Keeps(s, r) && Hushed(s, r) && SameWatch(s, r) && KeepsProof(s, r)
  {
    var t := s.turn.value;
    var exact := Exact(native, t.clientId);
    if Upgrades(t, id, native) then
      var (s1, proceed) := ProveExact(s, id.value, ExactCompleted);
      if !proceed then s1
      else WithTurn(s1, Recorded(s1.turn.value, native))
    else if |exact| == 1 then CompleteFromNative(s, native, Some(exact[0]))
    else if !t.request.accepted then WithTurn(s, t.(buffers := t.buffers.(completions := t.buffers.completions + [native])))
    else if t.identity.nativeId.Some? && id == t.identity.nativeId && t.request.kind == StartRequest then CompleteFromNative(s, native, None)
    else StartSingleScan(s, false, 0)
  }

  function OnCompleted(s: State, id: Option<Id>, native: NativeTurn): (r: State)
    ensures Keeps(s, r) && Hushed(s, r) && SameWatch(s, r) && KeepsProof(s, r)
  {
    var s1 := s.(nativeActive := Released(s, id));
    if s1.turn.None? then
      var s2 := SettleRunnerState(s1);
      if s2.queue != [] && s2.nativeActive.None? then Drain(s2) else s2
    else if InGroupMode(s1.turn.value) then GroupCompleted(s1, id, native)
    else SingleCompleted(s1, id, native)
  }

  function Rendered(texts: Texts, effect: ProgressEffect): Texts {
    match effect
    case Quiet => texts
    case Delta(text) => texts.(agent := texts.agent + text)
    case FinalText(text) => texts.(final := AnswerOf(text))
  }

  /** The turn moved forward: an armed keep-pending deadline is pushed back. */
  function Advanced(t: Turn, effect: ProgressEffect, deadline: int): Turn {
    t.(texts := Rendered(t.texts, effect),
       settlement := t.settlement.(deadline := if t.settlement.deadline.Some? then Some(deadline) else None))
  }

  function OnProgress(s: State, id: Option<Id>, effect: ProgressEffect, now: int): (r: State)
    ensures r.turn.Some? <==> s.turn.Some?
    ensures Keeps(s, r) && Hushed(s, r) && KeepsProof(s, r)
    ensures KeepsAccount(s, r)
  {
    if s.turn.None? then s
    else
      var t := s.turn.value;
      if !t.request.accepted then
        if t.request.kind == StartRequest && id.Some?
        then WithTurn(s, t.(buffers := t.buffers.(notes := t.buffers.notes + [ProgressNote(id.value, effect)])))
        else s
      else if t.identity.nativeId.Some? && id.Some? && id != t.identity.nativeId then s
      else
        s.(turn := Some(Advanced(t, effect, now + s.config.keepPendingWindow)),
           trace := if t.settlement.deadline.Some? then Signed(s.trace, Progressed(now)) else s.trace)
  }

  // ---------------------------------------------------------------------------
  // The root RPC
  // ---------------------------------------------------------------------------

  predicate ResponseContradicts(t: Turn, id: Option<Id>) {
    ExactlyProven(t) && t.identity.canonical.Some? && id.Some? && id != t.identity.canonical
  }

  function BoundTurn(t: Turn, id: Option<Id>): Turn {
    var binds := !t.settlement.completed && id.Some?;
    var requestProof := if t.request.kind == SteerRequest then GoalSnapshot else StartResponse;
    t.(request := t.request.(accepted := true, pending := false),
       identity := Identity(
         id,
         if binds then id else t.identity.canonical,
         if binds && t.identity.proof.None? then Some(requestProof) else t.identity.proof),
       phase := if binds && t.phase == Starting then Open else t.phase)
  }

  /** Binding the accepted response, before anything buffered is looked at. */
  function Bound(s: State, id: Option<Id>): (r: State)
    requires s.turn.Some?
    ensures r.turn.Some?
    ensures Keeps(s, r) && Hushed(s, r) && SameWatch(s, r)
  {
    var binds := !s.turn.value.settlement.completed && id.Some?;
    s.(turn := Some(BoundTurn(s.turn.value, id)), point := AwaitDone,
       nativeActive := if binds && (s.nativeActive.None? || s.nativeActive == id) then id else s.nativeActive)
  }

  /** A single steerable root whose exact proof was buffered, or a grown group. */
  predicate SettlesBufferedCanonical(t: Turn) {
    && !t.settlement.completed && t.settlement.completionSeen && t.settlement.terminal.Some? && !t.group.steerInFlight
    && t.settlement.terminal.value.id.Some? && t.settlement.terminal.value.id == t.identity.canonical
    && SteerableRoot(t)
    && (|t.group.members| > 1 || ExactlyProven(t))
  }

  function SettleAfterResponse(s: State): (r: State)
    requires s.turn.Some?
    ensures r.turn.Some?
    ensures Keeps(s, r) && Hushed(s, r) && SameWatch(s, r) && KeepsProof(s, r)
    ensures KeepsAccount(s, r)
  {
    var t := s.turn.value;
    var s1 := ResumeBuffered(s);
    if SettlesBufferedCanonical(t) then SettleSteered(s1, s1.turn.value.settlement.terminal.value) else s1
  }

  function Replayed(s: State, note: Notification, now: int): (r: State)
    ensures r.turn.Some? <==> s.turn.Some?
    ensures Keeps(s, r) && Hushed(s, r) && KeepsProof(s, r)
    ensures KeepsAccount(s, r)
  {
    match note
    case StartedNote(id, native) => OnStarted(s, Some(id), native, true)
    case ProgressNote(id, effect) => OnProgress(s, Some(id), effect, now)
  }

  function ReplayOne(s: State, note: Notification, now: int): (r: State)
    requires s.turn.Some?
    ensures r.turn.Some?
    ensures Keeps(s, r) && Hushed(s, r) && KeepsProof(s, r)
    ensures KeepsAccount(s, r)
  {
    if Some(note.id) == s.turn.value.identity.nativeId then Replayed(s, note, now) else s
  }

  /** Replay, in order, the notes that name the turn the response chose. */
  function ReplayAll(s: State, notes: seq<Notification>, now: int): (r: State)
    requires s.turn.Some?
    ensures r.turn.Some?
    ensures Keeps(s, r) && Hushed(s, r) && KeepsProof(s, r)
    decreases |notes|
  {
    if notes == [] then s
    else
      ReplayAll(ReplayOne(s, notes[0], now), notes[1..], now)
  }

  /** The number of buffered completions that name the accepted turn. */
  function NativeMatches(pending: seq<NativeTurn>, id: Option<Id>): seq<NativeTurn> {
    if pending == [] then []
    else
      var before := NativeMatches(pending[..|pending| - 1], id);
      if pending[|pending| - 1].id == id then before + [pending[|pending| - 1]] else before
  }

  function ExactMatches(pending: seq<NativeTurn>, clientId: Option<Id>): (r: seq<NativeTurn>)
    ensures forall k :: 0 <= k < |r| ==> |Exact(r[k], clientId)| == 1
  {
    if pending == [] then []
    else
      var before := ExactMatches(pending[..|pending| - 1], clientId);
      var last := pending[|pending| - 1];
      if |Exact(last, clientId)| == 1 then before + [last] else before
  }

  function SettlePending(s: State, pending: seq<NativeTurn>, now: int): (r: State)
    requires s.turn.Some?
    ensures r.turn.Some?
    ensures Keeps(s, r) && Hushed(s, r) && KeepsProof(s, r)
    ensures KeepsAccount(s, r)
  {
    var t := s.turn.value;
    if pending == [] || t.settlement.completed then s
    else
      var exact := ExactMatches(pending, t.clientId);
      var mine := NativeMatches(pending, t.identity.nativeId);
      if |exact| == 1 then CompleteFromNative(s, exact[0], Some(Exact(exact[0], t.clientId)[0]))
      else if |exact| > 1 || |mine| > 1 then ReportConflict(s, ManyMatches)
      else if t.request.kind == SteerRequest && |mine| == 1 then StartSingleScan(s, false, now)
      else if t.request.kind == StartRequest && |mine| == 1 then CompleteFromNative(s, mine[0], None)
      else StartSingleScan(s, true, now)
  }

  /** Everything `runTurn` does with a response before the buffered completions. */
  function Settled(s: State, id: Option<Id>, now: int): (r: State)
    requires s.turn.Some?
    ensures r.turn.Some?
    ensures Keeps(s, r) && Hushed(s, r)
  {
    var s1 := SettleAfterResponse(Bound(s, id));
    var notes := s1.turn.value.buffers.notes;
    var s2 := ReplayAll(WithTurn(s1, s1.turn.value.(buffers := s1.turn.value.buffers.(notes := []))), notes, now);
    WithTurn(s2, s2.turn.value.(buffers := s2.turn.value.buffers.(completions := [])))
  }

  function OnRootResponse(s: State, id: Option<Id>, now: int): (r: State)
    requires s.point.AwaitRoot? && s.turn.Some?
    ensures Keeps(s, r) && Hushed(s, r)
  {
    var t := s.turn.value;
    var responseId := if id.Some? then id else t.identity.nativeId;
    if ResponseContradicts(t, responseId) then
      FenceAndSettle(WithTurn(s, t.(request := t.request.(pending := false)))).(point := Returned)
    else
      var s1 := SettlePending(Settled(s, responseId, now), t.buffers.completions, now);
      if !s1.turn.value.settlement.completed && s1.turn.value.settlement.scan == NoScan then TryAdmit(s1) else s1
  }

  predicate PositiveEvidence(t: Turn) {
    t.request.serverStarted || t.identity.proof.Some? || t.identity.canonical.Some? || |t.group.members| > 1
  }

  /** The captured Goal turn ended before the root steer was accepted. */
  predicate FallsBack(s: State, call: RootCall, failure: RpcFailure) {
    && call.expected.Some? && !call.fellBack && s.nativeActive.None?
    && failure.serverError && failure.expectedTurnInactive
  }

  predicate RetriesLegacy(s: State, call: RootCall, failure: RpcFailure)
    requires s.turn.Some?
  {
    && !call.retried && call.structured && failure.capability
    && (call.expected.Some? || !s.turn.value.request.serverStarted)
  }

  /** The turn forgets the native turn it could not steer into. */
  function ResetForStart(t: Turn): Turn {
    t.(request := t.request.(kind := StartRequest, serverStarted := false),
       identity := t.identity.(nativeId := None),
       buffers := Buffers([], []), texts := Texts(Nothing, ""))
  }

  function OnRootError(s: State, failure: RpcFailure): (r: State)
    requires s.point.AwaitRoot? && s.turn.Some?
    ensures SameWatch(s, r)
  {
    var t := s.turn.value;
    var call := s.point.call;
    if FallsBack(s, call, failure) then
      var again := call.(expected := None, fellBack := true);
      s.(turn := Some(ResetForStart(t)), point := AwaitRoot(again), trace := Sent(s.trace, RootSend(again)))
    else if RetriesLegacy(s, call, failure) then
      s.(cleanInputUnsupported := true, point := AwaitRoot(call.(retried := true, structured := false)),
         trace := Sent(s.trace, RootSend(call)))
    else if PositiveEvidence(t) || !failure.serverError then
      FenceAndSettle(s).(point := Returned)
    else if s.fenced then
      s.(turn := None, point := Idle)
    else
      Drained(s.(turn := None, point := Returned, finals := s.finals + [Final(call.input, RunnerFailure, RunnerError)]))
  }

  // ---------------------------------------------------------------------------
  // The steer RPC
  // ---------------------------------------------------------------------------

  function Landed(t: Turn): Turn {
    t.(group := t.group.(steerInFlight := false))
  }

  /** The RPC is over: the barrier on the live turn is lifted. */
  function SteerOver(s: State): (r: State)
    ensures Keeps(s, r) && Hushed(s, r) && SameWatch(s, r) && KeepsProof(s, r)
  {
    s.(steer := None, turn := if SteerIsLive(s) then Some(Landed(s.turn.value)) else s.turn)
  }

  function FenceSteer(s: State): (r: State)
    ensures Keeps(s, r) && Hushed(s, r) && SameWatch(s, r) && KeepsProof(s, r)
  {
    if SteerIsLive(s) then FenceAndSettle(SteerOver(s)) else SteerOver(s).(fenced := true)
  }

  predicate SteerMatches(s: State, turnId: Option<Id>)
    requires s.steer.Some?
  {
    && turnId == Some(s.steer.value.expected)
    && s.queue != [] && s.queue[0].serial == s.steer.value.dispatch.input.serial
  }

  /** The accepted head leaves the queue and joins the live group. */
  function SteerAccepted(s: State): (r: State)
    requires s.steer.Some? && s.queue != []
    ensures Keeps(s, r) && Hushed(s, r) && SameWatch(s, r) && KeepsProof(s, r)
  {
    var dispatch := s.steer.value.dispatch;
    s.(steer := None, queue := s.queue[1..], trace := s.trace.(steered := s.trace.steered + [dispatch.input]),
       turn := if SteerIsLive(s) then Some(Joined(s.turn.value, dispatch)) else s.turn)
  }

  function Joined(t: Turn, dispatch: Dispatch): Turn {
    t.(group := t.group.(members := t.group.members + [dispatch], steerInFlight := false))
  }

  function OnSteerReply(s: State, reply: SteerReply): (r: State)
    requires s.steer.Some?
    ensures Keeps(s, r) && Hushed(s, r) && SameWatch(s, r) && KeepsProof(s, r)
  {
    match reply
    case SteerUnknown => FenceSteer(s)
    case SteerRejected =>
      if !SteerIsLive(s) then SteerOver(s)
      else
        var s1 := SteerOver(s);
        var s2 := WithTurn(s1, s1.turn.value.(group := s1.turn.value.group.(closed := true)));
        if s2.turn.value.settlement.completionSeen && s2.turn.value.settlement.terminal.Some? then SettleBuffered(s2) else s2
    case SteerTurn(turnId) =>
      if !SteerMatches(s, turnId) then FenceSteer(s)
      else
        var s1 := SteerAccepted(s);
        if SteerIsLive(s) && CanResume(s1) then ResumeBuffered(s1) else TryAdmit(s1)
  }

  // ---------------------------------------------------------------------------
  // Bounded history
  // ---------------------------------------------------------------------------

  /** Terminal turns of the scanned history that contain the client id once. */
  function SingleMatches(history: seq<NativeTurn>, clientId: Option<Id>): (r: seq<NativeTurn>)
    ensures forall k :: 0 <= k < |r| ==> Terminal(r[k]) && |Exact(r[k], clientId)| == 1
  {
    if history == [] then []
    else
      var before := SingleMatches(history[..|history| - 1], clientId);
      var last := history[|history| - 1];
      if Terminal(last) && |Exact(last, clientId)| == 1 then before + [last] else before
  }

  predicate Repeats(history: seq<NativeTurn>, clientId: Option<Id>) {
    exists k :: 0 <= k < |history| && Terminal(history[k]) && |Exact(history[k], clientId)| > 1
  }

  predicate OwnTerminal(history: seq<NativeTurn>, nativeId: Option<Id>) {
    nativeId.Some? && exists k :: 0 <= k < |history| && Terminal(history[k]) && history[k].id == nativeId
  }

  function GroupMatches(history: seq<NativeTurn>, ids: seq<Id>): (r: seq<NativeTurn>)
    ensures forall k :: 0 <= k < |r| ==> Terminal(r[k]) && VerifyGroup(ids, r[k]).Last?
  {
    if history == [] then []
    else
      var before := GroupMatches(history[..|history| - 1], ids);
      var last := history[|history| - 1];
      if Terminal(last) && VerifyGroup(ids, last).Last? then before + [last] else before
  }

  predicate DeadlinePassed(t: Turn, now: int) {
    t.settlement.deadline.Some? ==> now >= t.settlement.deadline.value
  }

  function OnSingleScan(s: State, history: seq<NativeTurn>, keepPending: bool, now: int): (r: State)
    requires s.turn.Some?
    ensures Keeps(s, r) && Hushed(s, r) && SameWatch(s, r) && KeepsProof(s, r)
    ensures KeepsAccount(s, r)
  {
    var t := s.turn.value;
    var matches := SingleMatches(history, t.clientId);
    if Repeats(history, t.clientId) then ReportConflict(s, ClientIdRepeated)
    else if t.settlement.completed then s
    else if |matches| == 1 then CompleteFromNative(s, matches[0], Some(Exact(matches[0], t.clientId)[0]))
    else if |matches| > 1 then ReportConflict(s, ManyMatches)
    else if !keepPending then ReportConflict(s, NoMatch)
    else if OwnTerminal(history, t.identity.nativeId) then ReportConflict(s, OwnTurnTerminated)
    else if DeadlinePassed(t, now) then ReportConflict(s, DeadlineReached)
    else s
  }

  /** The one full-group match becomes the group's native identity. */
  function SettleFromHistory(s: State, matched: NativeTurn, lastIndex: nat): (r: State)
    requires s.turn.Some?
    ensures r.turn.Some?
    ensures Keeps(s, r) && Hushed(s, r) && SameWatch(s, r)
  {
    var t := s.turn.value;
    var settled := t.(
      phase := Closing,
      texts := Texts(Rebuild(matched, lastIndex), ""),
      identity := if matched.id.Some? then Identity(matched.id, matched.id, t.identity.proof) else t.identity,
      settlement := t.settlement.(terminal := Some(matched), completed := true));
    s.(turn := Some(settled),
       nativeActive := if matched.id.Some? && (s.nativeActive == t.identity.canonical || s.nativeActive == matched.id)
                       then None else s.nativeActive)
  }

  function OnGroupScan(s: State, history: seq<NativeTurn>): (r: State)
    requires s.turn.Some?
    ensures Keeps(s, r) && Hushed(s, r) && SameWatch(s, r)
  {
    var ids := SentIds(s.turn.value.group.members);
    var matches := GroupMatches(history, ids);
    if s.turn.value.settlement.completed then s
    else if |matches| == 1 then SettleFromHistory(s, matches[0], VerifyGroup(ids, matches[0]).index)
    else ReportConflict(s, if |matches| == 0 then NoMatch else ManyMatches)
  }

  function OnHistory(s: State, history: seq<NativeTurn>, now: int): (r: State)
    requires s.turn.Some?
    ensures Keeps(s, r) && Hushed(s, r) && SameWatch(s, r)
  {
    match s.turn.value.settlement.scan
    case NoScan => s
    case SingleScan(keepPending) => OnSingleScan(s, history, keepPending, now)
    case GroupScan => OnGroupScan(s, history)
  }

  function OnHistoryFailed(s: State): (r: State)
    requires s.turn.Some?
    ensures Keeps(s, r) && Hushed(s, r) && SameWatch(s, r) && KeepsProof(s, r)
    ensures KeepsAccount(s, r)
  {
    if s.turn.value.settlement.scan == NoScan || s.turn.value.settlement.completed then s else ReportConflict(s, LookupFailed)
  }

  // ---------------------------------------------------------------------------
  // Finals
  // ---------------------------------------------------------------------------

  function SettledText(t: Turn): Answer {
    if t.texts.final == Nothing then AnswerOf(t.texts.agent) else t.texts.final
  }

  /** One final per accepted member: all but the last are empty and superseded. */
  function GroupFinals(t: Turn): (r: seq<Final>)
    ensures |r| == |t.group.members|
  {
    seq(|t.group.members|, k requires 0 <= k < |t.group.members| =>
      if k == |t.group.members| - 1 then Final(t.group.members[k].input, Real, SettledText(t))
      else Final(t.group.members[k].input, Superseded, Nothing))
  }

  function OnFinalize(s: State): (r: State)
    requires s.turn.Some?
    ensures SameWatch(s, r)
  {
    var emitted := if s.turn.value.phase == Fenced then [] else GroupFinals(s.turn.value);
    s.(finals := s.finals + emitted, turn := None, point := Returned)
  }

  function OnIdleTimer(s: State): (r: State)
    ensures Keeps(s, r) && Hushed(s, r) && SameWatch(s, r) && KeepsProof(s, r)
    ensures KeepsAccount(s, r)
  {
    var s1 := s.(idleTimer := false);
    if s.fenced then s1
    else s1.(trace := Marked(s.trace, s.point != Idle || s.queue != [] || s.nativeActive.Some?))
  }

  // ---------------------------------------------------------------------------
  // The transition function
  // ---------------------------------------------------------------------------

  predicate Enabled(s: State, step: Step) {
    match step
    case Launch => s.point.Launching?
    case RootResponse(_, _) => s.point.AwaitRoot? && s.turn.Some?
    case RootError(_) => s.point.AwaitRoot? && s.turn.Some?
    case SteerReplied(_) => s.steer.Some?
    case HistoryScanned(_, _) => s.turn.Some?
    case HistoryFailed => s.turn.Some?
    case Finalize => s.point.AwaitDone? && s.turn.Some? && s.turn.value.settlement.completed
    case AfterTurn => s.point.Returned?
    case IdleTimerFired => s.idleTimer
    case _ => true
  }

  function Next(s: State, step: Step): State {
    if !Enabled(s, step) then s
    else
      match step
      case Enqueue(line) => OnEnqueue(s, line)
      case Launch => OnLaunch(s)
      case RootResponse(id, now) => OnRootResponse(s, id, now)
      case RootError(failure) => OnRootError(s, failure)
      case SteerReplied(reply) => OnSteerReply(s, reply)
      case TurnStarted(id, native) => OnStarted(s, id, native, false)
      case TurnCompleted(id, native) => OnCompleted(s, id, native)
      case Progress(id, effect, now) => OnProgress(s, id, effect, now)
      case HistoryScanned(history, now) => OnHistory(s, history, now)
      case HistoryFailed => OnHistoryFailed(s)
      case Finalize => OnFinalize(s)
      case AfterTurn => Drained(s)
      case IdleTimerFired => OnIdleTimer(s)
      case Reauthenticated => SettleRunnerState(s)
  }

  function Run(s: State, steps: seq<Step>): State {
    if steps == [] then s else Next(Run(s, steps[..|steps| - 1]), steps[|steps| - 1])
  }
}
