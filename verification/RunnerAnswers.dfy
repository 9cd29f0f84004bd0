/**
 What a turn of the driver is answered with, in terms of the notifications that
 arrived for it: the streamed text of an unsettled turn is what its own native turn
 said, in order, and the final of a turn that did not grow is its last final text,
 else its native error, else that stream.
 */
module RunnerAnswers {
  import opened Options
  import opened GroupIdentity
  import opened RunnerSteps
  import opened RunnerInvariant
  import opened RunnerTheorems
  import opened RunnerBarrier
  import opened RunnerSettlement
  import opened RunnerGate
  import opened RunnerSteering

  // ---------------------------------------------------------------------------
  // The notifications of a run
  // ---------------------------------------------------------------------------

  /** A progress notification that names its native turn. */
  datatype Named = Named(id: Id, effect: ProgressEffect)

  /** The root steer is rejected because its native turn is over, and started. */
  predicate Restarts(s: State, failure: RpcFailure) {
    s.point.AwaitRoot? && s.turn.Some? && FallsBack(s, s.point.call, failure)
  }

  /** The active turn was sent as `turn/start` and waits for the response. */
  predicate AwaitsStart(s: State) {
    s.turn.Some? && !s.turn.value.request.accepted && s.turn.value.request.kind == StartRequest
  }

  /** What arrived before the response, with this step. */
  function Arriving(s: State, step: Step, before: seq<Named>): seq<Named> {
    match step
    case Launch => if s.point.Launching? then [] else before
    case RootError(failure) => if Restarts(s, failure) then [] else before
    case Progress(id, effect, _) => if id.Some? && AwaitsStart(s) then before + [Named(id.value, effect)] else before
    case _ => before
  }

  function Arrived(config: Config, steps: seq<Step>): seq<Named> {
    if steps == [] then []
    else
      var n := |steps| - 1;
      Arriving(Run(Init(config), steps[..n]), steps[n], Arrived(config, steps[..n]))
  }

  function Chosen(arrived: seq<Named>, id: Option<Id>): seq<ProgressEffect> {
    if arrived == [] then []
    else
      var before, last := Chosen(arrived[..|arrived| - 1], id), arrived[|arrived| - 1];
      if Some(last.id) == id then before + [last.effect] else before
  }

  /** The notification is not of another native turn than the accepted one. */
  predicate OfAccepted(s: State, id: Option<Id>) {
    && s.turn.Some? && s.turn.value.request.accepted
    && (s.turn.value.identity.nativeId.None? || id.None? || id == s.turn.value.identity.nativeId)
  }

  /** What the active turn's own native turn said, with this step: before the
      response, what came under the id that the response chooses, and from then on
      what comes under it. */
  function Hearing(s: State, step: Step, arrived: seq<Named>, before: seq<ProgressEffect>): seq<ProgressEffect> {
    match step
    case Launch => if s.point.Launching? then [] else before
    case RootError(failure) => if Restarts(s, failure) then [] else before
    case RootResponse(id, _) =>
      if s.point.AwaitRoot? && s.turn.Some? then before + Chosen(arrived, ResponseId(s, id)) else before
    case Progress(id, effect, _) => if OfAccepted(s, id) then before + [effect] else before
    case _ => before
  }

  function Heard(config: Config, steps: seq<Step>): seq<ProgressEffect> {
    if steps == [] then []
    else
      var n := |steps| - 1;
      Hearing(Run(Init(config), steps[..n]), steps[n], Arrived(config, steps[..n]), Heard(config, steps[..n]))
  }

  /** The deltas, one after another. */
  function Deltas(effects: seq<ProgressEffect>): string {
    if effects == [] then ""
    else
      var last := effects[|effects| - 1];
      Deltas(effects[..|effects| - 1]) + (if last.Delta? then last.text else "")
  }

  /** The last final text; an empty one counts as none. */
  function LastFinal(effects: seq<ProgressEffect>): Answer {
    if effects == [] then Nothing
    else
      var last := effects[|effects| - 1];
      if !last.FinalText? then LastFinal(effects[..|effects| - 1])
      else if last.text == "" then Nothing
      else Text(last.text)
  }

  function Stream(effects: seq<ProgressEffect>): Texts {
    Texts(LastFinal(effects), Deltas(effects))
  }

  // ---------------------------------------------------------------------------
  // What leaves an unsettled turn's text alone
  // ---------------------------------------------------------------------------

  /** The progress notifications among buffered ones. */
  function ProgressOf(notes: seq<Notification>): seq<Named> {
    if notes == [] then []
    else
      var before, last := ProgressOf(notes[..|notes| - 1]), notes[|notes| - 1];
      if last.ProgressNote? then before + [Named(last.id, last.effect)] else before
  }

  /** If the turn is still unsettled, then nothing was said by it or held back. */
  predicate TurnKeepsText(t: Turn, u: Turn) {
    !u.settlement.completed ==>
      && !t.settlement.completed && u.texts == t.texts
      && u.request.accepted == t.request.accepted && ProgressOf(u.buffers.notes) == ProgressOf(t.buffers.notes)
  }

  predicate KeepsText(s: State, r: State) {
    r.turn.Some? ==> s.turn.Some? && TurnKeepsText(s.turn.value, r.turn.value)
  }

  lemma TextOn(s: State, m: State, r: State)
    requires KeepsText(s, m) && KeepsText(m, r)
    ensures KeepsText(s, r)
  {
  }

  lemma AdmitKeepsText(s: State)
    ensures KeepsText(s, TryAdmit(s))
  {
  }

  lemma SteeredKeepsText(s: State, native: NativeTurn)
    requires s.turn.Some?
    ensures KeepsText(s, SettleSteered(s, native))
  {
  }

  lemma BufferedKeepsText(s: State)
    requires s.turn.Some? && s.turn.value.settlement.terminal.Some?
    ensures KeepsText(s, SettleBuffered(s))
  {
    SteeredKeepsText(s, s.turn.value.settlement.terminal.value);
  }

  lemma ScanKeepsText(s: State, keepPending: bool, now: int)
    requires s.turn.Some? && (s.turn.value.settlement.conflictReported ==> s.turn.value.settlement.completed)
    ensures KeepsText(s, StartSingleScan(s, keepPending, now))
  {
  }

  lemma CompleteKeepsText(s: State, native: NativeTurn, at: Option<nat>)
    requires s.turn.Some?
    ensures KeepsText(s, CompleteFromNative(s, native, at))
  {
  }

  lemma ConflictKeepsText(s: State, reason: Reason)
    requires s.turn.Some?
    ensures KeepsText(s, ReportConflict(s, reason))
  {
  }

  lemma NotedKeepsText(t: Turn, id: Id, native: NativeTurn)
    ensures TurnKeepsText(t, t.(buffers := t.buffers.(notes := t.buffers.notes + [StartedNote(id, native)])))
  {
    assert (t.buffers.notes + [StartedNote(id, native)])[..|t.buffers.notes|] == t.buffers.notes;
  }

  lemma TrackKeepsText(s: State, id: Id, native: NativeTurn)
    requires s.turn.Some?
    ensures KeepsText(s, TrackStarted(s, id, native))
  {
    NotedKeepsText(s.turn.value, id, native);
    AdmitKeepsText(WithTurn(s, s.turn.value.(request := s.turn.value.request.(serverStarted := true))));
  }

  lemma ProofKeepsText(s: State, id: Id, proof: Proof)
    requires s.turn.Some?
    ensures KeepsText(s, ProveExact(s, id, proof).0) && ProveExact(s, id, proof).0.turn.Some?
  {
  }

  lemma TrackedKeepsText(s: State, id: Id, native: NativeTurn)
    requires s.turn.Some?
    ensures KeepsText(s, Tracked(s, id, native))
  {
    var (s1, proceed) := ProveExact(s, id, ExactStarted);
    ProofKeepsText(s, id, ExactStarted);
    TrackKeepsText(s, id, native);
    TrackKeepsText(WithTurn(s1, OpenStarted(s1.turn.value, id)), id, native);
  }

  lemma StartKeepsText(s: State, id: Option<Id>, native: NativeTurn, replayed: bool)
    ensures KeepsText(s, OnStarted(s, id, native, replayed))
  {
    var s1 := if id.Some? && (!replayed || s.nativeActive.None? || s.nativeActive == id) then s.(nativeActive := id) else s;
    if s1.turn.Some? && id.Some? {
      TrackedKeepsText(s1, id.value, native);
    }
  }

  lemma GroupCompletionKeepsText(s: State, id: Option<Id>, native: NativeTurn)
    requires s.turn.Some?
    ensures KeepsText(s, GroupCompleted(s, id, native))
  {
    SteeredKeepsText(WithTurn(s, BufferCompletion(s.turn.value, id, native)), native);
  }

  lemma SingleCompletionKeepsText(s: State, id: Option<Id>, native: NativeTurn)
    requires s.turn.Some? && (s.turn.value.settlement.conflictReported ==> s.turn.value.settlement.completed)
    ensures KeepsText(s, SingleCompleted(s, id, native))
  {
    if Upgrades(s.turn.value, id, native) {
      ProofKeepsText(s, id.value, ExactCompleted);
    } else {
      var exact := Exact(native, s.turn.value.clientId);
      CompleteKeepsText(s, native, if |exact| == 1 then Some(exact[0]) else None);
      ScanKeepsText(s, false, 0);
    }
  }

  lemma CompletionKeepsText(s: State, id: Option<Id>, native: NativeTurn)
    requires Shaped(s)
    ensures KeepsText(s, OnCompleted(s, id, native))
  {
    if s.turn.Some? {
      var s1 := s.(nativeActive := Released(s, id));
      GroupCompletionKeepsText(s1, id, native);
      SingleCompletionKeepsText(s1, id, native);
    }
  }

  lemma ReplyKeepsText(s: State, reply: SteerReply)
    requires s.steer.Some?
    ensures KeepsText(s, OnSteerReply(s, reply))
  {
    match reply
    case SteerUnknown =>
    case SteerRejected => RejectionKeepsText(s);
    case SteerTurn(turnId) =>
      if SteerMatches(s, turnId) {
        AcceptanceKeepsText(s);
      }
  }

  lemma RejectionKeepsText(s: State)
    requires s.steer.Some?
    ensures KeepsText(s, OnSteerReply(s, SteerRejected))
  {
    if SteerIsLive(s) {
      var s1 := SteerOver(s);
      var s2 := WithTurn(s1, s1.turn.value.(group := s1.turn.value.group.(closed := true)));
      if s2.turn.value.settlement.completionSeen && s2.turn.value.settlement.terminal.Some? {
        BufferedKeepsText(s2);
      }
    }
  }

  lemma AcceptanceKeepsText(s: State)
    requires s.steer.Some? && s.queue != []
    ensures var s1 := SteerAccepted(s);
      KeepsText(s, TryAdmit(s1)) && (SteerIsLive(s) ==> KeepsText(s, ResumeBuffered(s1)))
  {
    var s1 := SteerAccepted(s);
    AdmitKeepsText(s1);
    if SteerIsLive(s) && CanResume(s1) {
      BufferedKeepsText(s1);
    }
  }

  lemma HistoryKeepsText(s: State, history: seq<NativeTurn>, now: int)
    requires Shaped(s) && s.turn.Some?
    ensures KeepsText(s, OnHistory(s, history, now))
  {
    match s.turn.value.settlement.scan
    case NoScan =>
    case SingleScan(keep) => SingleHistoryKeepsText(s, history, keep, now);
    case GroupScan =>
      var matches := GroupMatches(history, SentIds(s.turn.value.group.members));
      ConflictKeepsText(s, if |matches| == 0 then NoMatch else ManyMatches);
  }

  lemma SingleHistoryKeepsText(s: State, history: seq<NativeTurn>, keepPending: bool, now: int)
    requires s.turn.Some?
    ensures KeepsText(s, OnSingleScan(s, history, keepPending, now))
  {
    var matches := SingleMatches(history, s.turn.value.clientId);
    if |matches| == 1 {
      CompleteKeepsText(s, matches[0], Some(Exact(matches[0], s.turn.value.clientId)[0]));
    }
    ConflictKeepsText(s, ClientIdRepeated);
    ConflictKeepsText(s, ManyMatches);
    ConflictKeepsText(s, NoMatch);
  }

  lemma EnqueueKeepsText(s: State, line: Line)
    ensures KeepsText(s, OnEnqueue(s, line))
  {
    AdmitKeepsText(Pushed(s, line));
  }

  /** Every step but the turn's own notifications and the answer to its root RPC. */
  lemma {:induction false} OtherStepsKeepText(s: State, step: Step)
    requires Shaped(s) && !step.Launch? && !step.RootResponse? && !step.RootError? && !step.Progress?
    ensures KeepsText(s, Next(s, step))
  {
    if Enabled(s, step) {
      match step
      case Enqueue(line) => EnqueueKeepsText(s, line);
      case SteerReplied(reply) => ReplyKeepsText(s, reply);
      case TurnStarted(id, native) => StartKeepsText(s, id, native, false);
      case TurnCompleted(id, native) => CompletionKeepsText(s, id, native);
      case HistoryScanned(history, now) => HistoryKeepsText(s, history, now);
      case HistoryFailed => ConflictKeepsText(s, LookupFailed);
      case _ =>
    }
  }

  // ---------------------------------------------------------------------------
  // What its own native turn says
  // ---------------------------------------------------------------------------

  predicate HasFinal(effects: seq<ProgressEffect>) {
    exists k :: 0 <= k < |effects| && effects[k].FinalText?
  }

  /** `base` with what was said since. */
  function Onto(base: Texts, effects: seq<ProgressEffect>): Texts {
    Texts(if HasFinal(effects) then LastFinal(effects) else base.final, base.agent + Deltas(effects))
  }

  lemma {:induction false} NoFinalHeard(effects: seq<ProgressEffect>)
    requires !HasFinal(effects)
    ensures LastFinal(effects) == Nothing
  {
    if effects != [] {
      NoFinalHeard(effects[..|effects| - 1]);
    }
  }

  lemma StreamIsOnto(effects: seq<ProgressEffect>)
    ensures Onto(Texts(Nothing, ""), effects) == Stream(effects) && Stream([]) == Texts(Nothing, "")
  {
    if !HasFinal(effects) {
      NoFinalHeard(effects);
    }
    assert "" + Deltas(effects) == Deltas(effects);
  }

  lemma HasFinalSnoc(effects: seq<ProgressEffect>, effect: ProgressEffect)
    ensures HasFinal(effects + [effect]) <==> HasFinal(effects) || effect.FinalText?
  {
    var more := effects + [effect];
    assert more[|effects|] == effect;
    if HasFinal(effects) {
      var k :| 0 <= k < |effects| && effects[k].FinalText?;
      assert more[k].FinalText?;
    }
  }

  lemma OntoSnoc(base: Texts, effects: seq<ProgressEffect>, effect: ProgressEffect)
    ensures Onto(base, effects + [effect]) == Rendered(Onto(base, effects), effect)
  {
    HasFinalSnoc(effects, effect);
    assert (effects + [effect])[..|effects|] == effects;
    if effect.Delta? {
      assert base.agent + (Deltas(effects) + effect.text) == base.agent + Deltas(effects) + effect.text;
    } else {
      assert Deltas(effects) + "" == Deltas(effects);
    }
  }

  lemma StreamSnoc(effects: seq<ProgressEffect>, effect: ProgressEffect)
    ensures Stream(effects + [effect]) == Rendered(Stream(effects), effect)
  {
    StreamIsOnto(effects);
    StreamIsOnto(effects + [effect]);
    OntoSnoc(Texts(Nothing, ""), effects, effect);
  }

  lemma {:induction false} ReplaySnoc(s: State, notes: seq<Notification>, note: Notification, now: int)
    requires s.turn.Some?
    ensures ReplayAll(s, notes + [note], now) == ReplayOne(ReplayAll(s, notes, now), note, now)
    decreases |notes|
  {
    if notes == [] {
      assert notes + [note] == [note];
      assert ReplayAll(ReplayOne(s, note, now), [], now) == ReplayOne(s, note, now);
    } else {
      assert (notes + [note])[1..] == notes[1..] + [note];
      ReplaySnoc(ReplayOne(s, notes[0], now), notes[1..], note, now);
    }
  }

  /** One buffered note adds what its own native turn said. */
  lemma NoteSays(s: State, note: Notification, now: int)
    requires s.turn.Some? && s.turn.value.request.accepted
    ensures var t, u := s.turn.value, ReplayOne(s, note, now).turn.value;
      && u.texts == (if note.ProgressNote? && Some(note.id) == t.identity.nativeId then Rendered(t.texts, note.effect) else t.texts)
      && u.identity.nativeId == t.identity.nativeId && u.request.accepted
  {
    NoteSetsAnswer(s, note, now);
    if note.StartedNote? && Some(note.id) == s.turn.value.identity.nativeId {
      var s1 := if s.nativeActive.None? || s.nativeActive == Some(note.id) then s.(nativeActive := Some(note.id)) else s;
      TrackedKeepsAnswer(s1, note.id, note.turn);
    }
  }

  /** The replay adds what the accepted native turn said before, in order. */
  lemma {:induction false} ReplaySays(s: State, notes: seq<Notification>, now: int)
    requires s.turn.Some? && s.turn.value.request.accepted
    ensures var t, u := s.turn.value, ReplayAll(s, notes, now).turn.value;
      && u.texts == Onto(t.texts, Chosen(ProgressOf(notes), t.identity.nativeId))
      && u.identity.nativeId == t.identity.nativeId && u.request.accepted
    decreases |notes|
  {
    var t := s.turn.value;
    if notes == [] {
      assert t.texts.agent + "" == t.texts.agent;
    } else {
      var n := |notes| - 1;
      var before, note := notes[..n], notes[n];
      assert notes == before + [note];
      ReplaySays(s, before, now);
      ReplaySnoc(s, before, note, now);
      NoteSays(ReplayAll(s, before, now), note, now);
      var said := ProgressOf(before);
      if note.ProgressNote? {
        assert (said + [Named(note.id, note.effect)])[..|said|] == said;
        OntoSnoc(t.texts, Chosen(said, t.identity.nativeId), note.effect);
      }
    }
  }

  /** What the response leaves of an unsettled turn's text. */
  lemma ResponseSays(s: State, id: Option<Id>, now: int)
    requires Shaped(s) && s.point.AwaitRoot?
    ensures var r := OnRootResponse(s, id, now);
      r.turn.Some? && !r.turn.value.settlement.completed ==>
        var t, u := s.turn.value, r.turn.value;
        && !t.settlement.completed && u.request.accepted
        && u.texts == Onto(t.texts, Chosen(ProgressOf(t.buffers.notes), ResponseId(s, id)))
  {
    var responseId := ResponseId(s, id);
    if !ResponseContradicts(s.turn.value, responseId) {
      AgreedResponseSays(s, responseId, now);
      var m := SettlePending(Settled(s, responseId, now), s.turn.value.buffers.completions, now);
      AdmitKeepsText(m);
    }
  }

  lemma SettledSays(s: State, id: Option<Id>, now: int)
    requires s.turn.Some? && (s.turn.value.settlement.conflictReported ==> s.turn.value.settlement.completed)
    requires !Settled(s, id, now).turn.value.settlement.completed
    ensures var t, u := s.turn.value, Settled(s, id, now).turn.value;
      && !t.settlement.completed && u.request.accepted
      && u.texts == Onto(t.texts, Chosen(ProgressOf(t.buffers.notes), id))
  {
    var b := Bound(s, id);
    var s1 := SettleAfterResponse(b);
    SettledKeepsAccount(s, id, now);
    assert !s1.turn.value.settlement.completed;
    KeepsUnsettled(b, s1);
    OpenBinding(b);
    var s2 := WithTurn(s1, s1.turn.value.(buffers := s1.turn.value.buffers.(notes := [])));
    ReplaySays(s2, s1.turn.value.buffers.notes, now);
  }

  lemma KeepsUnsettled(s: State, r: State)
    requires s.turn.Some? && KeepsAccount(s, r) && !r.turn.value.settlement.completed
    ensures !s.turn.value.settlement.completed
  {
  }

  lemma PendingKeepsText(s: State, pending: seq<NativeTurn>, now: int)
    requires s.turn.Some? && (s.turn.value.settlement.conflictReported ==> s.turn.value.settlement.completed)
    ensures KeepsText(s, SettlePending(s, pending, now))
  {
    var exact := ExactMatches(pending, s.turn.value.clientId);
    var mine := NativeMatches(pending, s.turn.value.identity.nativeId);
    if |exact| == 1 {
      CompleteKeepsText(s, exact[0], Some(Exact(exact[0], s.turn.value.clientId)[0]));
    } else if |mine| == 1 {
      CompleteKeepsText(s, mine[0], None);
    }
    ConflictKeepsText(s, ManyMatches);
    ScanKeepsText(s, false, now);
    ScanKeepsText(s, true, now);
  }

  lemma AgreedResponseSays(s: State, id: Option<Id>, now: int)
    requires Shaped(s) && s.point.AwaitRoot? && !ResponseContradicts(s.turn.value, id)
    ensures var m := SettlePending(Settled(s, id, now), s.turn.value.buffers.completions, now);
      !m.turn.value.settlement.completed ==>
        var t, u := s.turn.value, m.turn.value;
        && !t.settlement.completed && u.request.accepted
        && u.texts == Onto(t.texts, Chosen(ProgressOf(t.buffers.notes), id))
  {
    var s1 := Settled(s, id, now);
    SettledKept(s, id, now);
    PendingKeepsText(s1, s.turn.value.buffers.completions, now);
    if !s1.turn.value.settlement.completed {
      SettledSays(s, id, now);
    }
  }

  /** The text of an unsettled turn is what was heard, and until the response all
      that arrived is held back. */
  predicate HasHeard(s: State, arrived: seq<Named>, heard: seq<ProgressEffect>) {
    s.turn.Some? && !s.turn.value.settlement.completed ==>
      && s.turn.value.texts == Stream(heard)
      && (!s.turn.value.request.accepted ==> heard == [] && ProgressOf(s.turn.value.buffers.notes) == arrived)
  }

  lemma KeptIsHeard(s: State, r: State, arrived: seq<Named>, heard: seq<ProgressEffect>)
    requires HasHeard(s, arrived, heard) && KeepsText(s, r)
    ensures HasHeard(r, arrived, heard)
  {
  }

  lemma ProgressIsBuffered(t: Turn, id: Id, effect: ProgressEffect)
    ensures ProgressOf(t.buffers.notes + [ProgressNote(id, effect)]) == ProgressOf(t.buffers.notes) + [Named(id, effect)]
  {
    assert (t.buffers.notes + [ProgressNote(id, effect)])[..|t.buffers.notes|] == t.buffers.notes;
  }

  lemma HeldProgressIsHeard(s: State, id: Option<Id>, effect: ProgressEffect, now: int, arrived: seq<Named>, heard: seq<ProgressEffect>)
    requires HasHeard(s, arrived, heard) && (s.turn.Some? ==> !s.turn.value.request.accepted)
    ensures HasHeard(OnProgress(s, id, effect, now), Arriving(s, Progress(id, effect, now), arrived), heard)
  {
    if AwaitsStart(s) && id.Some? {
      ProgressIsBuffered(s.turn.value, id.value, effect);
    } else {
      assert OnProgress(s, id, effect, now) == s;
    }
  }

  lemma OwnProgressIsHeard(s: State, id: Option<Id>, effect: ProgressEffect, now: int, arrived: seq<Named>, heard: seq<ProgressEffect>)
    requires HasHeard(s, arrived, heard) && s.turn.Some? && s.turn.value.request.accepted
    ensures HasHeard(OnProgress(s, id, effect, now), arrived, if OfAccepted(s, id) then heard + [effect] else heard)
  {
    if OfAccepted(s, id) {
      StreamSnoc(heard, effect);
      assert OnProgress(s, id, effect, now).turn == Some(Advanced(s.turn.value, effect, now + s.config.keepPendingWindow));
    } else {
      assert OnProgress(s, id, effect, now) == s;
    }
  }

  lemma ProgressIsHeard(s: State, id: Option<Id>, effect: ProgressEffect, now: int, arrived: seq<Named>, heard: seq<ProgressEffect>)
    requires HasHeard(s, arrived, heard)
    ensures var step := Progress(id, effect, now);
      HasHeard(OnProgress(s, id, effect, now), Arriving(s, step, arrived), Hearing(s, step, arrived, heard))
  {
    if s.turn.Some? && s.turn.value.request.accepted {
      OwnProgressIsHeard(s, id, effect, now, arrived, heard);
    } else {
      HeldProgressIsHeard(s, id, effect, now, arrived, heard);
    }
  }

  lemma ResponseIsHeard(s: State, id: Option<Id>, now: int, arrived: seq<Named>, heard: seq<ProgressEffect>)
    requires Shaped(s) && s.point.AwaitRoot? && HasHeard(s, arrived, heard)
    ensures HasHeard(OnRootResponse(s, id, now), arrived, heard + Chosen(arrived, ResponseId(s, id)))
  {
    ResponseSays(s, id, now);
    StreamIsOnto(Chosen(arrived, ResponseId(s, id)));
    assert [] + Chosen(arrived, ResponseId(s, id)) == Chosen(arrived, ResponseId(s, id));
  }

  lemma ErrorIsHeard(s: State, failure: RpcFailure, arrived: seq<Named>, heard: seq<ProgressEffect>)
    requires Shaped(s) && s.point.AwaitRoot? && HasHeard(s, arrived, heard)
    ensures HasHeard(OnRootError(s, failure), if Restarts(s, failure) then [] else arrived, if Restarts(s, failure) then [] else heard)
  {
    StreamIsOnto([]);
    if !Restarts(s, failure) && !RetriesLegacy(s, s.point.call, failure) {
      assert OnRootError(s, failure).turn.None? || OnRootError(s, failure).turn.value.settlement.completed;
    }
  }

  lemma RootIsHeard(s: State, step: Step, arrived: seq<Named>, heard: seq<ProgressEffect>)
    requires Shaped(s) && HasHeard(s, arrived, heard) && (step.RootError? || step.RootResponse?)
    ensures HasHeard(Next(s, step), Arriving(s, step, arrived), Hearing(s, step, arrived, heard))
  {
    if Enabled(s, step) {
      match step
      case RootError(failure) => ErrorIsHeard(s, failure, arrived, heard);
      case RootResponse(id, now) => ResponseIsHeard(s, id, now, arrived, heard);
    }
  }

  lemma StepIsHeard(s: State, step: Step, arrived: seq<Named>, heard: seq<ProgressEffect>)
    requires Shaped(s) && HasHeard(s, arrived, heard)
    ensures HasHeard(Next(s, step), Arriving(s, step, arrived), Hearing(s, step, arrived, heard))
  {
    match step
    case Launch => StreamIsOnto([]);
    case RootError(failure) => RootIsHeard(s, step, arrived, heard);
    case RootResponse(id, now) => RootIsHeard(s, step, arrived, heard);
    case Progress(id, effect, now) => ProgressIsHeard(s, id, effect, now, arrived, heard);
    case _ => OtherIsHeard(s, step, arrived, heard);
  }

  lemma OtherIsHeard(s: State, step: Step, arrived: seq<Named>, heard: seq<ProgressEffect>)
    requires Shaped(s) && HasHeard(s, arrived, heard)
    requires !step.Launch? && !step.RootResponse? && !step.RootError? && !step.Progress?
    ensures HasHeard(Next(s, step), arrived, heard)
  {
    OtherStepsKeepText(s, step);
    KeptIsHeard(s, Next(s, step), arrived, heard);
  }

  /** Over every run: the text streamed into an unsettled turn is, in order, what
      its own native turn said and nothing else, whatever came before the response
      and whatever other turns said. */
  lemma {:induction false} StreamedTextIsHeard(config: Config, steps: seq<Step>)
    ensures HasHeard(Run(Init(config), steps), Arrived(config, steps), Heard(config, steps))
  {
    if steps != [] {
      var n := |steps| - 1;
      StreamedTextIsHeard(config, steps[..n]);
      RunShaped(config, steps[..n]);
      StepIsHeard(Run(Init(config), steps[..n]), steps[n], Arrived(config, steps[..n]), Heard(config, steps[..n]));
    }
  }

  // ---------------------------------------------------------------------------
  // From the settlement to the final
  // ---------------------------------------------------------------------------

  /** The turn is settled, takes no one more and waits for its finals. */
  predicate AwaitsFinals(s: State) {
    s.point.AwaitDone? && s.turn.Some? && s.turn.value.settlement.completed && !s.turn.value.group.steerInFlight
  }

  /** A step that does not come from the turn itself, or from a lookup for it. */
  predicate Foreign(step: Step) {
    !step.Progress? && !step.HistoryScanned? && !step.Finalize?
  }

  /** The turn stays, settled as it was. */
  predicate Lasts(s: State, r: State) {
    && r.point == s.point && s.turn.Some? && r.turn.Some?
    && r.turn.value.epoch == s.turn.value.epoch && r.turn.value.texts == s.turn.value.texts && r.turn.value.settlement.completed
  }

  lemma TrackLasts(s: State, id: Id, native: NativeTurn)
    requires s.turn.Some? && s.turn.value.settlement.completed
    ensures Lasts(s, TrackStarted(s, id, native))
  {
  }

  lemma ProofLasts(s: State, id: Id, proof: Proof)
    requires s.turn.Some? && s.turn.value.settlement.completed
    ensures Lasts(s, ProveExact(s, id, proof).0)
  {
  }

  lemma TrackedLasts(s: State, id: Id, native: NativeTurn)
    requires s.turn.Some? && s.turn.value.settlement.completed
    ensures Lasts(s, Tracked(s, id, native))
  {
    var (s1, proceed) := ProveExact(s, id, ExactStarted);
    TrackLasts(s, id, native);
    ProofLasts(s, id, ExactStarted);
    TrackLasts(WithTurn(s1, OpenStarted(s1.turn.value, id)), id, native);
  }

  lemma StartLasts(s: State, id: Option<Id>, native: NativeTurn)
    requires s.turn.Some? && s.turn.value.settlement.completed
    ensures Lasts(s, OnStarted(s, id, native, false))
  {
    if id.Some? {
      TrackedLasts(s.(nativeActive := id), id.value, native);
    }
  }

  lemma ReplyLasts(s: State, reply: SteerReply)
    requires Shaped(s) && s.steer.Some? && AwaitsFinals(s)
    ensures Lasts(s, OnSteerReply(s, reply))
  {
    assert !SteerIsLive(s);
  }

  lemma GroupCompletionLasts(s: State, id: Option<Id>, native: NativeTurn)
    requires s.turn.Some? && s.turn.value.settlement.completed
    ensures Lasts(s, GroupCompleted(s, id, native))
  {
  }

  lemma SingleCompletionLasts(s: State, id: Option<Id>, native: NativeTurn)
    requires s.turn.Some? && s.turn.value.settlement.completed && s.turn.value.request.accepted
    ensures Lasts(s, SingleCompleted(s, id, native))
  {
  }

  lemma CompletionLasts(s: State, id: Option<Id>, native: NativeTurn)
    requires Shaped(s) && AwaitsFinals(s)
    ensures Lasts(s, OnCompleted(s, id, native))
  {
    var s1 := s.(nativeActive := Released(s, id));
    GroupCompletionLasts(s1, id, native);
    SingleCompletionLasts(s1, id, native);
  }

  lemma RestLasts(s: State, step: Step)
    requires AwaitsFinals(s) && Foreign(step) && !step.SteerReplied? && !step.TurnStarted? && !step.TurnCompleted?
    ensures Lasts(s, Next(s, step))
  {
  }

  lemma NextLasts(s: State, step: Step)
    requires Shaped(s) && AwaitsFinals(s) && Foreign(step)
    ensures Lasts(s, Next(s, step))
  {
    if !Enabled(s, step) {
      assert Next(s, step) == s;
    } else {
      match step
      case SteerReplied(reply) => ReplyLasts(s, reply);
      case TurnStarted(id, native) => StartLasts(s, id, native);
      case TurnCompleted(id, native) => CompletionLasts(s, id, native);
      case _ => RestLasts(s, step);
    }
  }

  lemma AwaitsOn(s: State, step: Step)
    requires Shaped(s) && AwaitsFinals(s) && Foreign(step)
    ensures AwaitsFinals(Next(s, step)) && Lasts(s, Next(s, step))
    ensures Next(s, step).turn.value.group.members == s.turn.value.group.members
  {
    NextLasts(s, step);
    ShutGroupStaysShut(s, step);
  }

  /** `r` gives the group of `s` the text of `s` as its answer, or, if a fence was
      raised for the turn, none. */
  predicate Answers(s: State, r: State, answer: Answer)
    requires s.turn.Some? && s.turn.value.group.members != []
  {
    var members := s.turn.value.group.members;
    && r.point.AwaitDone? && r.turn.Some?
    && var finals := Next(r, Finalize).finals;
       if r.turn.value.phase == Fenced then finals == r.finals
       else
         && |finals| == |r.finals| + |members| && r.finals <= finals
         && finals[|finals| - 1] == Final(members[|members| - 1].input, Real, answer)
  }

  lemma {:induction false} RunAwaits(s: State, between: seq<Step>)
    requires Shaped(s) && AwaitsFinals(s)
    requires forall k :: 0 <= k < |between| ==> Foreign(between[k])
    ensures var r := Run(s, between);
      Shaped(r) && AwaitsFinals(r) && Lasts(s, r) && r.turn.value.group.members == s.turn.value.group.members
  {
    if between != [] {
      var n := |between| - 1;
      RunAwaits(s, between[..n]);
      AwaitsOn(Run(s, between[..n]), between[n]);
      NextKept(Run(s, between[..n]), between[n]);
    }
  }

  lemma FinalizeAnswers(s: State, r: State)
    requires s.turn.Some? && s.turn.value.group.members != [] && AwaitsFinals(r)
    requires r.turn.value.texts == s.turn.value.texts && r.turn.value.group.members == s.turn.value.group.members
    ensures var texts := s.turn.value.texts;
      Answers(s, r, if texts.final != Nothing then texts.final else if texts.agent == "" then Nothing else Text(texts.agent))
  {
    assert Enabled(r, Finalize);
  }

  /** A settled turn that waits for its finals is answered with its final text, or
      else with what was streamed, however many foreign steps come first. */
  lemma {:induction false} SettledIsAnswered(s: State, between: seq<Step>)
    requires Shaped(s) && AwaitsFinals(s)
    requires forall k :: 0 <= k < |between| ==> Foreign(between[k])
    ensures var texts := s.turn.value.texts;
      Answers(s, Run(s, between),
              if texts.final != Nothing then texts.final else if texts.agent == "" then Nothing else Text(texts.agent))
  {
    RunAwaits(s, between);
    FinalizeAnswers(s, Run(s, between));
  }

  // ---------------------------------------------------------------------------
  // The answer of a turn that did not grow
  // ---------------------------------------------------------------------------

  /** What a turn's own native turn answers: its last final text, else its error,
      else what it streamed. */
  function OwnAnswer(effects: seq<ProgressEffect>, native: NativeTurn): Answer {
    if LastFinal(effects) != Nothing then LastFinal(effects)
    else if native.error.Some? then NativeFailure(native.error.value)
    else if Deltas(effects) == "" then Nothing
    else Text(Deltas(effects))
  }

  /** A started, accepted turn that did not grow, and is not settled. */
  predicate Plain(s: State) {
    && s.turn.Some? && !s.turn.value.settlement.completed && s.turn.value.request.accepted
    && !InGroupMode(s.turn.value) && !s.turn.value.group.steerInFlight
  }

  /** It ends: its own native turn completes, thinly. */
  predicate EndsItself(s: State, id: Option<Id>, native: NativeTurn) {
    && Plain(s) && s.turn.value.request.kind == StartRequest
    && id.Some? && id == s.turn.value.identity.nativeId
    && Terminal(native) && |Exact(native, s.turn.value.clientId)| != 1
  }

  lemma OwnCompletionSettles(s: State, id: Option<Id>, native: NativeTurn, effects: seq<ProgressEffect>)
    requires Shaped(s) && s.point.AwaitDone? && EndsItself(s, id, native) && s.turn.value.texts == Stream(effects)
    ensures var r := Next(s, TurnCompleted(id, native));
      && AwaitsFinals(r) && r.turn.value.group == s.turn.value.group
      && r.turn.value.texts.agent == Deltas(effects)
      && r.turn.value.texts.final == (if LastFinal(effects) != Nothing then LastFinal(effects)
                                      else if native.error.Some? then NativeFailure(native.error.value) else Nothing)
  {
  }

  lemma PlainIsAwaited(s: State)
    requires Shaped(s) && s.turn.Some? && !s.turn.value.settlement.completed && s.turn.value.request.accepted && !s.fenced
    ensures s.point.AwaitDone?
  {
  }

  /** Over every run: a turn that did not grow, started and settled by the end of its
      own native turn, is answered with what that turn said. */
  lemma {:induction false} OwnCompletionAnswers(config: Config, steps: seq<Step>, id: Option<Id>, native: NativeTurn, between: seq<Step>)
    requires var s := Run(Init(config), steps); !s.fenced && EndsItself(s, id, native)
    requires forall k :: 0 <= k < |between| ==> Foreign(between[k])
    ensures Shaped(Run(Init(config), steps))
    ensures var s := Run(Init(config), steps);
      Answers(s, Run(Next(s, TurnCompleted(id, native)), between), OwnAnswer(Heard(config, steps), native))
  {
    var s := Run(Init(config), steps);
    RunShaped(config, steps);
    PlainIsAwaited(s);
    StreamedTextIsHeard(config, steps);
    OwnCompletionSettles(s, id, native, Heard(config, steps));
    NextKept(s, TurnCompleted(id, native));
    SettledIsAnswered(Next(s, TurnCompleted(id, native)), between);
  }

  /** It is found: its own message is in the native turn that completes. */
  predicate FindsItself(s: State, native: NativeTurn) {
    Plain(s) && Terminal(native) && |Exact(native, s.turn.value.clientId)| == 1
  }

  lemma ExactCompletionSettles(s: State, id: Option<Id>, native: NativeTurn)
    requires Shaped(s) && s.point.AwaitDone? && FindsItself(s, native)
    ensures var r := Next(s, TurnCompleted(id, native));
      && AwaitsFinals(r) && r.turn.value.group == s.turn.value.group
      && r.turn.value.texts == Texts(Rebuild(native, Exact(native, s.turn.value.clientId)[0]), "")
  {
  }

  /** Over every run: a turn that did not grow, settled by a completion that holds its
      message once, is answered with what follows that message there, whatever was
      streamed. */
  lemma {:induction false} ExactCompletionAnswers(config: Config, steps: seq<Step>, id: Option<Id>, native: NativeTurn, between: seq<Step>)
    requires var s := Run(Init(config), steps); !s.fenced && FindsItself(s, native)
    requires forall k :: 0 <= k < |between| ==> Foreign(between[k])
    ensures Shaped(Run(Init(config), steps))
    ensures var s := Run(Init(config), steps);
      Answers(s, Run(Next(s, TurnCompleted(id, native)), between), Rebuild(native, Exact(native, s.turn.value.clientId)[0]))
  {
    var s := Run(Init(config), steps);
    RunShaped(config, steps);
    PlainIsAwaited(s);
    ExactCompletionSettles(s, id, native);
    NextKept(s, TurnCompleted(id, native));
    SettledIsAnswered(Next(s, TurnCompleted(id, native)), between);
  }

  /** A lookup for it ends with this history: it is found, repeated, or given up. */
  predicate LookupEnds(s: State, history: seq<NativeTurn>) {
    && Plain(s) && s.turn.value.settlement.scan.SingleScan?
    && (s.turn.value.settlement.scan.keepPending ==>
          Repeats(history, s.turn.value.clientId) || SingleMatches(history, s.turn.value.clientId) != [])
  }

  /** What is found after its message in the one turn that holds it, or why not. */
  function LookupAnswer(t: Turn, history: seq<NativeTurn>): Answer {
    var matches := SingleMatches(history, t.clientId);
    if Repeats(history, t.clientId) then Conflict(ClientIdRepeated)
    else if |matches| == 1 then Rebuild(matches[0], Exact(matches[0], t.clientId)[0])
    else Conflict(if |matches| == 0 then NoMatch else ManyMatches)
  }

  /** The ended native turn holds the message at that item, or at two. */
  predicate HoldsAt(native: NativeTurn, id: Id, item: nat) {
    Terminal(native) && native.full && item < |native.items| && native.items[item] == UserMessage(Some(id))
  }

  ghost predicate HoldsTwice(native: NativeTurn, id: Id) {
    exists i: nat, j: nat :: i < j && HoldsAt(native, id, i) && HoldsAt(native, id, j)
  }

  ghost predicate Holds(native: NativeTurn, id: Id) {
    exists i: nat :: HoldsAt(native, id, i)
  }

  lemma HeldCount(native: NativeTurn, id: Id)
    requires Terminal(native)
    ensures |Exact(native, Some(id))| > 1 <==> HoldsTwice(native, id)
    ensures |Exact(native, Some(id))| > 0 <==> Holds(native, id)
    ensures forall i: nat :: HoldsAt(native, id, i) && !HoldsTwice(native, id) ==> Exact(native, Some(id)) == [i]
  {
    var exact := Exact(native, Some(id));
    assert forall i: nat :: HoldsAt(native, id, i) <==> i in exact;
    if |exact| > 0 {
      assert HoldsAt(native, id, exact[0]);
    }
    if |exact| > 1 {
      assert exact[1] in exact;
      assert HoldsAt(native, id, exact[0]) && HoldsAt(native, id, exact[1]);
    }
  }

  lemma {:induction false} NoneHolds(history: seq<NativeTurn>, id: Id)
    requires forall k :: 0 <= k < |history| ==> !Holds(history[k], id)
    ensures SingleMatches(history, Some(id)) == []
  {
    if history != [] {
      var n := |history| - 1;
      NoneHolds(history[..n], id);
      if Terminal(history[n]) {
        HeldCount(history[n], id);
      }
    }
  }

  lemma {:induction false} OneHolds(history: seq<NativeTurn>, id: Id, k: nat)
    requires k < |history| && Holds(history[k], id) && !HoldsTwice(history[k], id)
    requires forall j :: 0 <= j < |history| && j != k ==> !Holds(history[j], id)
    ensures SingleMatches(history, Some(id)) == [history[k]]
  {
    var n := |history| - 1;
    if Terminal(history[n]) {
      HeldCount(history[n], id);
    }
    if k == n {
      NoneHolds(history[..n], id);
    } else {
      OneHolds(history[..n], id, k);
    }
  }

  lemma RepeatsIsTwice(history: seq<NativeTurn>, id: Id)
    ensures Repeats(history, Some(id)) <==> exists k :: 0 <= k < |history| && HoldsTwice(history[k], id)
    ensures forall k :: 0 <= k < |history| && HoldsTwice(history[k], id) ==> Holds(history[k], id)
  {
    forall k | 0 <= k < |history|
      ensures Terminal(history[k]) && |Exact(history[k], Some(id))| > 1 <==> HoldsTwice(history[k], id) {
      if Terminal(history[k]) {
        HeldCount(history[k], id);
      }
    }
  }

  lemma LookupFindsNone(t: Turn, id: Id, history: seq<NativeTurn>)
    requires t.clientId == Some(id) && forall k :: 0 <= k < |history| ==> !Holds(history[k], id)
    ensures LookupAnswer(t, history) == Conflict(NoMatch)
  {
    RepeatsIsTwice(history, id);
    NoneHolds(history, id);
  }

  lemma LookupFindsOne(t: Turn, id: Id, history: seq<NativeTurn>, k: nat, item: nat)
    requires t.clientId == Some(id) && k < |history| && HoldsAt(history[k], id, item) && !HoldsTwice(history[k], id)
    requires forall j :: 0 <= j < |history| && j != k ==> !Holds(history[j], id)
    ensures LookupAnswer(t, history) == Rebuild(history[k], item)
  {
    RepeatsIsTwice(history, id);
    assert Holds(history[k], id);
    OneHolds(history, id, k);
    HeldCount(history[k], id);
  }

  /** Only the turn at `k` holds the message, once, at `item`. */
  ghost predicate OnlyHolds(history: seq<NativeTurn>, id: Id, k: nat, item: nat) {
    && k < |history| && HoldsAt(history[k], id, item) && !HoldsTwice(history[k], id)
    && forall j :: 0 <= j < |history| && j != k ==> !Holds(history[j], id)
  }

  /** What the lookup finds, in terms of the items of the history. */
  lemma {:induction false} LookupReadsHistory(t: Turn, id: Id, history: seq<NativeTurn>)
    requires t.clientId == Some(id)
    ensures (exists k :: 0 <= k < |history| && HoldsTwice(history[k], id)) ==> LookupAnswer(t, history) == Conflict(ClientIdRepeated)
    ensures (forall k :: 0 <= k < |history| ==> !Holds(history[k], id)) ==> LookupAnswer(t, history) == Conflict(NoMatch)
    ensures forall k: nat, item: nat :: OnlyHolds(history, id, k, item) ==> LookupAnswer(t, history) == Rebuild(history[k], item)
  {
    RepeatsIsTwice(history, id);
    if forall k :: 0 <= k < |history| ==> !Holds(history[k], id) {
      LookupFindsNone(t, id, history);
    }
    forall k: nat, item: nat | OnlyHolds(history, id, k, item) ensures LookupAnswer(t, history) == Rebuild(history[k], item) {
      LookupFindsOne(t, id, history, k, item);
    }
  }

  lemma LookupSettlesPlain(s: State, history: seq<NativeTurn>, now: int)
    requires Shaped(s) && s.point.AwaitDone? && LookupEnds(s, history)
    ensures var r := Next(s, HistoryScanned(history, now));
      && AwaitsFinals(r) && r.turn.value.group == s.turn.value.group
      && r.turn.value.texts == Texts(LookupAnswer(s.turn.value, history), "")
  {
    var matches := SingleMatches(history, s.turn.value.clientId);
    if Repeats(history, s.turn.value.clientId) {
      ConflictSettles(s, ClientIdRepeated);
    } else if |matches| == 1 {
      MatchSettles(s, matches[0], Exact(matches[0], s.turn.value.clientId)[0]);
    } else {
      ConflictSettles(s, if |matches| == 0 then NoMatch else ManyMatches);
    }
  }

  lemma ConflictSettles(s: State, reason: Reason)
    requires Plain(s) && s.point.AwaitDone? && !s.turn.value.settlement.conflictReported
    ensures var r := ReportConflict(s, reason);
      AwaitsFinals(r) && r.turn.value.group == s.turn.value.group && r.turn.value.texts == Texts(Conflict(reason), "")
  {
  }

  lemma MatchSettles(s: State, native: NativeTurn, index: nat)
    requires Plain(s) && s.point.AwaitDone? && Terminal(native)
    ensures var r := CompleteFromNative(s, native, Some(index));
      AwaitsFinals(r) && r.turn.value.group == s.turn.value.group && r.turn.value.texts == Texts(Rebuild(native, index), "")
  {
  }

  /** Over every run: a turn that did not grow and is looked up is answered with
      what the lookup finds, or with the reason why it finds nothing; never with
      what was streamed. */
  lemma {:induction false} LookupAnswersPlain(config: Config, steps: seq<Step>, history: seq<NativeTurn>, now: int, between: seq<Step>)
    requires var s := Run(Init(config), steps); !s.fenced && LookupEnds(s, history)
    requires forall k :: 0 <= k < |between| ==> Foreign(between[k])
    ensures Shaped(Run(Init(config), steps))
    ensures var s := Run(Init(config), steps);
      Answers(s, Run(Next(s, HistoryScanned(history, now)), between), LookupAnswer(s.turn.value, history))
  {
    var s := Run(Init(config), steps);
    RunShaped(config, steps);
    PlainIsAwaited(s);
    LookupSettlesPlain(s, history, now);
    NextKept(s, HistoryScanned(history, now));
    SettledIsAnswered(Next(s, HistoryScanned(history, now)), between);
  }

  /** Its only completion came before the response to its `turn/start`, and no steer
      is outstanding when it is replayed. */
  predicate EndsEarly(s: State, id: Option<Id>, native: NativeTurn) {
    && !s.fenced && s.point.AwaitRoot? && s.turn.Some? && !s.turn.value.settlement.completed
    && s.turn.value.request.kind == StartRequest
    && !ResponseContradicts(s.turn.value, ResponseId(s, id)) && !HoldsCanonical(s.turn.value) && !ReplaysUnderSteer(s, id)
    && NativeMatches(s.turn.value.buffers.completions, ResponseId(s, id)) == [native] && Terminal(native)
  }

  lemma EarlyCompletionSettles(s: State, pending: seq<NativeTurn>, native: NativeTurn, now: int, effects: seq<ProgressEffect>)
    requires Answerless(s) && s.turn.value.request.kind == StartRequest && s.turn.value.texts == Stream(effects)
    requires ExactMatches(pending, s.turn.value.clientId) == []
    requires NativeMatches(pending, s.turn.value.identity.nativeId) == [native] && Terminal(native)
    ensures var u := Concluded(s, pending, now).turn.value;
      && u.settlement.completed && u.group == s.turn.value.group && u.texts.agent == Deltas(effects)
      && u.texts.final == (if LastFinal(effects) != Nothing then LastFinal(effects)
                           else if native.error.Some? then NativeFailure(native.error.value) else Nothing)
  {
    assert pending != [];
    assert SettlePending(s, pending, now) == CompleteFromNative(s, native, None);
  }

  lemma EarlyReplay(s: State, id: Option<Id>, now: int)
    requires Shaped(s) && !s.fenced && s.point.AwaitRoot? && !s.turn.value.settlement.completed
    requires !ResponseContradicts(s.turn.value, id) && !HoldsCanonical(s.turn.value)
    ensures var r := Settled(s, id, now);
      !r.fenced && r.turn.value.group.members == s.turn.value.group.members
  {
    var b := Bound(s, id);
    BoundKept(s, id);
    BoundAgrees(s, id);
    BindingSettlesExactly(s, id);
    SettlingKeepsIdentity(b);
    NotesSteerExactly(SettleAfterResponse(b), now);
  }

  /** What the response makes of it. */
  lemma EarlyResponseSettles(s: State, id: Option<Id>, native: NativeTurn, now: int, arrived: seq<Named>)
    requires Shaped(s) && s.point.AwaitRoot? && EndsEarly(s, id, native)
    requires s.turn.value.texts == Texts(Nothing, "") && ProgressOf(s.turn.value.buffers.notes) == arrived
    ensures var r, effects := Next(s, RootResponse(id, now)), Chosen(arrived, ResponseId(s, id));
      && AwaitsFinals(r) && r.turn.value.group.members == s.turn.value.group.members
      && r.turn.value.texts.agent == Deltas(effects)
      && r.turn.value.texts.final == (if LastFinal(effects) != Nothing then LastFinal(effects)
                                      else if native.error.Some? then NativeFailure(native.error.value) else Nothing)
  {
    var responseId := ResponseId(s, id);
    var s1 := Settled(s, responseId, now);
    OpenAnswers(s, responseId, now);
    SettledSays(s, responseId, now);
    ReplayedUnderSteerExactly(s, id, now);
    SettledKept(s, responseId, now);
    StreamIsOnto(Chosen(arrived, responseId));
    EarlyCompletionSettles(s1, s.turn.value.buffers.completions, native, now, Chosen(arrived, responseId));
    EarlyReplay(s, responseId, now);
    assert Next(s, RootResponse(id, now)) == Concluded(s1, s.turn.value.buffers.completions, now);
    ConcludedAwaits(s1, s.turn.value.buffers.completions, now);
  }

  lemma ConcludedAwaits(s: State, pending: seq<NativeTurn>, now: int)
    requires s.turn.Some? && s.point.AwaitDone? && !s.turn.value.group.steerInFlight
    requires Concluded(s, pending, now).turn.value.settlement.completed
    requires Concluded(s, pending, now).turn.value.group == s.turn.value.group
    ensures AwaitsFinals(Concluded(s, pending, now))
  {
    PendingStaysOut(s, pending, now);
    AdmitStaysOut(SettlePending(s, pending, now));
  }

  /** Over every run: a turn whose own completion came before the response to its
      `turn/start` is answered, once the response names it, with what came under that
      id before the response. */
  lemma {:induction false} EarlyCompletionAnswers(config: Config, steps: seq<Step>, id: Option<Id>, now: int, native: NativeTurn, between: seq<Step>)
    requires EndsEarly(Run(Init(config), steps), id, native)
    requires forall k :: 0 <= k < |between| ==> Foreign(between[k])
    ensures Shaped(Run(Init(config), steps))
    ensures var s := Run(Init(config), steps);
      Answers(s, Run(Next(s, RootResponse(id, now)), between), OwnAnswer(Chosen(Arrived(config, steps), ResponseId(s, id)), native))
  {
    var s := Run(Init(config), steps);
    RunShaped(config, steps);
    StreamedTextIsHeard(config, steps);
    StreamIsOnto([]);
    EarlyResponseSettles(s, id, native, now, Arrived(config, steps));
    NextKept(s, RootResponse(id, now));
    SettledIsAnswered(Next(s, RootResponse(id, now)), between);
  }
}
