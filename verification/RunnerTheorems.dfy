/**
 What the ordered-steer driver promises over whole runs, and exactly when it
 keeps it: one final per input in arrival order, and first proof wins. Every run
 starts from `Init` and may take any steps.
 */
module RunnerTheorems {
  import opened Options
  import opened GroupIdentity
  import opened RunnerSteps
  import opened RunnerInvariant

  // ---------------------------------------------------------------------------
  // The ids of an input
  // ---------------------------------------------------------------------------

  /** Client ids are sent, and no structured input was refused so far. */
  predicate EchoesIds(s: State) {
    s.config.clientIds && !s.cleanInputUnsupported
  }

  /** A framed line is routed by its reply id, or else by its sidecar's client id. A
      structured input is sent under the very id it is routed by, so what the server
      echoes names the message to reply to; where ids are not supported, under the
      sidecar's own. A plain line has no id and is never steered. */
  lemma EchoedIdRoutesReply(s: State, line: Line)
    ensures var input := Decode(s, line);
      && input.serial == |s.received| && input.content == line.content
      && (line.Plain? ==>
            input.replyTurnId.None? && input.sidecar.None? && !input.steerable && RequestClientId(s, input).None?)
      && (line.Framed? ==>
            && input.sidecar == line.sidecar && input.steerable == line.steerable
            && (line.replyTurnId.Some? || line.sidecar.None? ==> input.replyTurnId == line.replyTurnId)
            && (line.replyTurnId.None? && line.sidecar.Some? ==> input.replyTurnId == line.sidecar.value.clientId)
            && (line.sidecar.None? ==> RequestClientId(s, input).None?)
            && (line.sidecar.Some? && EchoesIds(s) ==> RequestClientId(s, input) == input.replyTurnId)
            && (line.sidecar.Some? && !EchoesIds(s) ==> RequestClientId(s, input) == line.sidecar.value.clientId))
  {
  }

  /** The ids a group is checked by are those its members were sent under, in
      accepted order; a member without one is not checked. */
  lemma {:induction false} SentIdsInOrder(first: seq<Dispatch>, rest: seq<Dispatch>, input: Input, id: Id)
    ensures SentIds([]) == [] && SentIds([Dispatch(input, None)]) == [] && SentIds([Dispatch(input, Some(id))]) == [id]
    ensures SentIds(first + rest) == SentIds(first) + SentIds(rest)
  {
    assert [Dispatch(input, None)][..0] == [] && [Dispatch(input, Some(id))][..0] == [];
    if rest == [] {
      assert first + rest == first;
    } else {
      var n := |rest| - 1;
      assert (first + rest)[..|first| + n] == first + rest[..n];
      SentIdsInOrder(first, rest[..n], input, id);
    }
  }

  // ---------------------------------------------------------------------------
  // FIFO conservation
  // ---------------------------------------------------------------------------

  /** Only an enqueue receives input, and finals are never retracted. */
  lemma HistoriesGrow(s: State, step: Step)
    ensures Next(s, step).received == s.received + (if step.Enqueue? then [Decode(s, step.line)] else [])
    ensures s.finals <= Next(s, step).finals
  {
  }

  /** While unfenced, the inputs received are the inputs finalized, then the
      held ones, then the queue; a quiescent runner has given every input
      exactly one final, in arrival order. A fence stops this short, but leaves
      what was and may still be finalized a prefix. */
  ghost predicate OneFinalEachInOrder(s: State) {
    && InputsOf(s.finals) <= s.received
    && (s.fenced ==> InputsOf(s.finals) + Held(s) <= s.received)
    && (!s.fenced ==> InputsOf(s.finals) + Held(s) + s.queue == s.received)
    && (!s.fenced && s.point.Idle? && s.queue == [] ==> InputsOf(s.finals) == s.received)
  }

  lemma WaitingIsOrdered(s: State)
    requires if s.fenced then Waiting(s) <= s.received else Waiting(s) == s.received
    ensures OneFinalEachInOrder(s)
  {
    if !s.fenced {
      assert Waiting(s) == InputsOf(s.finals) + (Held(s) + s.queue);
    } else {
      assert Waiting(s) == InputsOf(s.finals) + Held(s);
    }
  }

  lemma OrderedIsWaiting(s: State)
    requires OneFinalEachInOrder(s)
    ensures if s.fenced then Waiting(s) <= s.received else Waiting(s) == s.received
  {
    if s.fenced {
      assert Waiting(s) == InputsOf(s.finals) + Held(s);
    }
  }

  /** A lost input is the queue head, and it is gone. */
  lemma {:induction false} LosesTheHead(s: State, step: Step)
    requires Shaped(s) && LosesInput(s, step)
    ensures Waiting(Next(s, step)) == InputsOf(s.finals) + Held(s) + s.queue[1..]
    ensures !Next(s, step).fenced && Next(s, step).received == s.received
  {
    AcceptedLoses(s);
    var s1 := SteerAccepted(s);
    SteerAcceptedKept(s);
    AdmitKept(s1);
  }

  lemma AcceptedLoses(s: State)
    requires !s.fenced && s.steer.Some? && !SteerIsLive(s) && s.queue != []
    ensures Waiting(SteerAccepted(s)) == InputsOf(s.finals) + Held(s) + s.queue[1..]
    ensures !SteerAccepted(s).fenced && SteerAccepted(s).received == s.received
  {
  }

  /** The one step that breaks conservation, and it always does. */
  lemma {:induction false} ConservedExactly(s: State, step: Step)
    requires Shaped(s) && OneFinalEachInOrder(s)
    ensures OneFinalEachInOrder(Next(s, step)) <==> !LosesInput(s, step)
  {
    var r := Next(s, step);
    OrderedIsWaiting(s);
    if LosesInput(s, step) {
      LosesTheHead(s, step);
      assert |Waiting(r)| == |Waiting(s)| - 1;
      if OneFinalEachInOrder(r) {
        OrderedIsWaiting(r);
      }
    } else {
      NextKept(s, step);
      if step.Enqueue? {
        PushedShaped(s, step.line);
      }
      WaitingIsOrdered(r);
    }
  }

  /** Over every run in which no input is lost that way. */
  lemma {:induction false} EveryInputOneFinalInOrder(config: Config, steps: seq<Step>)
    requires forall k :: 0 <= k < |steps| ==> !LosesInput(Run(Init(config), steps[..k]), steps[k])
    ensures OneFinalEachInOrder(Run(Init(config), steps))
  {
    if steps == [] {
      InitShaped(config);
      WaitingIsOrdered(Init(config));
    } else {
      var n := |steps| - 1;
      assert forall k :: 0 <= k < n ==> steps[..n][..k] == steps[..k];
      EveryInputOneFinalInOrder(config, steps[..n]);
      RunShaped(config, steps[..n]);
      ConservedExactly(Run(Init(config), steps[..n]), steps[n]);
    }
  }

  /** What waits is in arrival order. */
  ghost predicate Ascending(s: State) {
    && (forall j, k :: 0 <= j < k < |Waiting(s)| ==> Waiting(s)[j].serial < Waiting(s)[k].serial)
    && (forall k :: 0 <= k < |Waiting(s)| ==> Waiting(s)[k].serial < |s.received|)
  }

  lemma PushedAscends(s: State, line: Line)
    requires Shaped(s) && Ascending(s)
    ensures Ascending(Pushed(s, line))
  {
    PushedShaped(s, line);
  }

  lemma FlowsAscend(s: State, r: State)
    requires Ascending(s) && Flows(s, r)
    ensures Ascending(r)
  {
  }

  lemma LossAscends(s: State, step: Step)
    requires Shaped(s) && Ascending(s) && LosesInput(s, step)
    ensures Ascending(Next(s, step))
  {
    LosesTheHead(s, step);
    var head := InputsOf(s.finals) + Held(s);
    assert Waiting(s) == head + s.queue && Waiting(Next(s, step)) == head + s.queue[1..];
    assert forall k :: 0 <= k < |Waiting(Next(s, step))| ==>
      Waiting(Next(s, step))[k] == Waiting(s)[if k < |head| then k else k + 1];
  }

  lemma {:induction false} RunAscends(config: Config, steps: seq<Step>)
    ensures Ascending(Run(Init(config), steps))
  {
    if steps == [] {
      InitShaped(config);
    } else {
      var n := |steps| - 1;
      var s, step := Run(Init(config), steps[..n]), steps[n];
      RunAscends(config, steps[..n]);
      RunShaped(config, steps[..n]);
      if LosesInput(s, step) {
        LossAscends(s, step);
      } else {
        NextKept(s, step);
        if step.Enqueue? {
          PushedAscends(s, step.line);
        }
        FlowsAscend(if step.Enqueue? then Pushed(s, step.line) else s, Next(s, step));
      }
    }
  }

  /** In every run, fenced or not: finals come in arrival order, so no input
      ever has two. */
  lemma {:induction false} NoInputFinalizedTwice(config: Config, steps: seq<Step>, j: nat, k: nat)
    requires j < k < |Run(Init(config), steps).finals|
    ensures Run(Init(config), steps).finals[j].input.serial < Run(Init(config), steps).finals[k].input.serial
    ensures Run(Init(config), steps).finals[j].input != Run(Init(config), steps).finals[k].input
  {
    RunAscends(config, steps);
    var s := Run(Init(config), steps);
    assert Waiting(s)[j] == s.finals[j].input && Waiting(s)[k] == s.finals[k].input;
  }

  /** Input number `serial` has arrived and waits nowhere. */
  ghost predicate Gone(s: State, serial: nat) {
    serial < |s.received| && forall k :: 0 <= k < |Waiting(s)| ==> Waiting(s)[k].serial != serial
  }

  lemma {:induction false} GoneStays(s: State, step: Step, serial: nat)
    requires Shaped(s) && Gone(s, serial)
    ensures Gone(Next(s, step), serial)
  {
    if LosesInput(s, step) {
      LossStaysGone(s, step, serial);
    } else {
      NextKept(s, step);
      if step.Enqueue? {
        PushStaysGone(s, step.line, serial);
      }
      FlowStaysGone(if step.Enqueue? then Pushed(s, step.line) else s, Next(s, step), serial);
    }
  }

  lemma LossStaysGone(s: State, step: Step, serial: nat)
    requires Shaped(s) && Gone(s, serial) && LosesInput(s, step)
    ensures Gone(Next(s, step), serial)
  {
    LosesTheHead(s, step);
    var head := InputsOf(s.finals) + Held(s);
    assert Waiting(s) == head + s.queue;
    assert forall k :: 0 <= k < |Waiting(Next(s, step))| ==>
      Waiting(Next(s, step))[k] == Waiting(s)[if k < |head| then k else k + 1];
  }

  lemma PushStaysGone(s: State, line: Line, serial: nat)
    requires Shaped(s) && Gone(s, serial)
    ensures Gone(Pushed(s, line), serial)
  {
    PushedShaped(s, line);
  }

  lemma FlowStaysGone(s: State, r: State, serial: nat)
    requires Gone(s, serial) && Flows(s, r)
    ensures Gone(r, serial)
  {
  }

  lemma LossIsGone(s: State, step: Step)
    requires Shaped(s) && Ascending(s) && LosesInput(s, step)
    ensures Gone(Next(s, step), s.queue[0].serial)
  {
    LosesTheHead(s, step);
    var head := InputsOf(s.finals) + Held(s);
    assert Waiting(s) == head + s.queue && Waiting(s)[|head|] == s.queue[0];
    assert forall k :: 0 <= k < |Waiting(Next(s, step))| ==>
      Waiting(Next(s, step))[k] == Waiting(s)[if k < |head| then k else k + 1];
  }

  lemma {:induction false} LostStaysGone(config: Config, steps: seq<Step>, lost: nat)
    requires lost < |steps| && LosesInput(Run(Init(config), steps[..lost]), steps[lost])
    ensures Gone(Run(Init(config), steps), Run(Init(config), steps[..lost]).queue[0].serial)
  {
    var n := |steps| - 1;
    var serial := Run(Init(config), steps[..lost]).queue[0].serial;
    RunShaped(config, steps[..n]);
    if lost == n {
      RunAscends(config, steps[..n]);
      LossIsGone(Run(Init(config), steps[..n]), steps[n]);
    } else {
      assert steps[..n][..lost] == steps[..lost];
      LostStaysGone(config, steps[..n], lost);
      GoneStays(Run(Init(config), steps[..n]), steps[n], serial);
    }
  }

  lemma GoneIsNotFinal(s: State, serial: nat)
    requires Gone(s, serial)
    ensures forall final :: final in s.finals ==> final.input.serial != serial
  {
    assert forall k :: 0 <= k < |s.finals| ==> Waiting(s)[k] == s.finals[k].input;
  }

  /** A lost input never gets a final, however the run goes on. */
  lemma LostInputIsNeverFinalized(config: Config, steps: seq<Step>, lost: nat)
    requires lost < |steps| && LosesInput(Run(Init(config), steps[..lost]), steps[lost])
    ensures var serial := Run(Init(config), steps[..lost]).queue[0].serial;
      && Gone(Run(Init(config), steps), serial)
      && forall final :: final in Run(Init(config), steps).finals ==> final.input.serial != serial
  {
    LostStaysGone(config, steps, lost);
    GoneIsNotFinal(Run(Init(config), steps), Run(Init(config), steps[..lost]).queue[0].serial);
  }

  /** The members of the live group are the arrivals after the last one finalized. */
  lemma HeldIsNextReceived(s: State)
    requires OneFinalEachInOrder(s) && s.point.AwaitDone? && s.turn.Some? && s.turn.value.phase != Fenced
    ensures var members := s.turn.value.group.members;
      && |s.finals| + |members| <= |s.received|
      && forall i :: 0 <= i < |members| ==> members[i].input == s.received[|s.finals| + i]
  {
    var members := s.turn.value.group.members;
    OrderedIsWaiting(s);
    forall i | 0 <= i < |members| ensures members[i].input == s.received[|s.finals| + i] {
      assert Waiting(s)[|s.finals| + i] == Members(members)[i];
    }
  }

  lemma FinalizeEmits(s: State)
    requires Shaped(s) && Enabled(s, Finalize)
    ensures if s.turn.value.phase == Fenced then Next(s, Finalize).finals == s.finals
      else Next(s, Finalize).finals == s.finals + GroupFinals(s.turn.value) && s.turn.value.group.members != []
  {
  }

  lemma FinalsOnReceived(finals: seq<Final>, received: seq<Input>, t: Turn)
    requires t.group.members != [] && |finals| + |t.group.members| <= |received|
    requires forall i :: 0 <= i < |t.group.members| ==> t.group.members[i].input == received[|finals| + i]
    ensures var all := finals + GroupFinals(t); var last := |all| - 1;
      && |all| == |finals| + |t.group.members| && all[..|finals|] == finals
      && (forall k :: |finals| <= k < last ==> all[k] == Final(received[k], Superseded, Nothing))
      && all[last] == Final(received[last], Real, SettledText(t))
  {
    var all := finals + GroupFinals(t);
    forall k | |finals| <= k < |all| - 1 ensures all[k] == Final(received[k], Superseded, Nothing) {
      assert t.group.members[k - |finals|].input == received[|finals| + (k - |finals|)];
    }
  }

  lemma GroupExpandsOnto(s: State, finals: seq<Final>)
    requires OneFinalEachInOrder(s) && s.point.AwaitDone? && s.turn.Some? && s.turn.value.phase != Fenced
    requires finals == s.finals + GroupFinals(s.turn.value) && s.turn.value.group.members != []
    ensures var t := s.turn.value; var n := |t.group.members|; var base := |s.finals|;
      && n > 0 && |finals| == base + n <= |s.received| && finals[..base] == s.finals
      && (forall k :: base <= k < base + n - 1 ==> finals[k] == Final(s.received[k], Superseded, Nothing))
      && finals[base + n - 1] == Final(s.received[base + n - 1], Real, SettledText(t))
  {
    HeldIsNextReceived(s);
    FinalsOnReceived(s.finals, s.received, s.turn.value);
  }

  /** A settled group of n takes the next n arrivals: n - 1 empty superseded
      finals, then the one real answer; a fenced group yields none. */
  lemma {:induction false} GroupExpandsInOrder(s: State)
    requires Shaped(s) && OneFinalEachInOrder(s) && Enabled(s, Finalize)
    ensures var t := s.turn.value; var n := |t.group.members|; var base := |s.finals|;
      if t.phase == Fenced then Next(s, Finalize).finals == s.finals
      else
        && n > 0 && |Next(s, Finalize).finals| == base + n <= |s.received|
        && Next(s, Finalize).finals[..base] == s.finals
        && (forall k :: base <= k < base + n - 1 ==>
              Next(s, Finalize).finals[k] == Final(s.received[k], Superseded, Nothing))
        && Next(s, Finalize).finals[base + n - 1] == Final(s.received[base + n - 1], Real, SettledText(t))
  {
    FinalizeEmits(s);
    if s.turn.value.phase != Fenced {
      GroupExpandsOnto(s, Next(s, Finalize).finals);
    }
  }

  // ---------------------------------------------------------------------------
  // First proof wins
  // ---------------------------------------------------------------------------

  /** A group lookup finds the one terminal turn that holds the whole group, and
      its id is not the proven one. */
  predicate ReplacesCanonical(s: State, step: Step) {
    && step.HistoryScanned? && s.turn.Some?
    && s.turn.value.settlement.scan.GroupScan? && !s.turn.value.settlement.completed
    && var matches := GroupMatches(step.history, SentIds(s.turn.value.group.members));
    && |matches| == 1 && matches[0].id.Some? && matches[0].id != s.turn.value.identity.canonical
  }

  /** Once proven, the canonical id of a turn changes exactly when a group lookup
      answers it from another turn, which settles it. */
  lemma {:induction false} FirstProofWins(s: State, step: Step)
    requires Shaped(s) && s.turn.Some? && s.turn.value.identity.canonical.Some? && Next(s, step).turn.Some?
    ensures var t, u := s.turn.value, Next(s, step).turn.value;
      && u.epoch == t.epoch
      && (u.identity.canonical != t.identity.canonical <==> ReplacesCanonical(s, step))
      && (ReplacesCanonical(s, step) ==> u.settlement.completed)
  {
    if Enabled(s, step) {
      match step
      case RootResponse(id, now) => ResponseKeepsCanonical(s, id, now);
      case HistoryScanned(history, now) => LookupReplacesExactly(s, history, now);
      case RootError(failure) => ErrorKeepsCanonical(s, failure);
      case Finalize =>
      case Launch =>
      case _ => assert SameCanonical(s, Next(s, step));
    }
  }

  lemma ErrorKeepsCanonical(s: State, failure: RpcFailure)
    requires s.point.AwaitRoot? && s.turn.Some? && s.turn.value.identity.canonical.Some?
    ensures SameCanonical(s, OnRootError(s, failure))
  {
  }

  lemma LookupReplacesExactly(s: State, history: seq<NativeTurn>, now: int)
    requires s.turn.Some? && s.turn.value.identity.canonical.Some?
    ensures var t, u := s.turn.value, OnHistory(s, history, now).turn.value;
      && u.epoch == t.epoch
      && (u.identity.canonical != t.identity.canonical <==> ReplacesCanonical(s, HistoryScanned(history, now)))
      && (ReplacesCanonical(s, HistoryScanned(history, now)) ==> u.settlement.completed)
  {
  }

  /** Over every run: whatever arrives after a turn's canonical id was proven, the
      turn keeps it, before and after it settles, unless a group lookup answers it
      from another turn. */
  lemma {:induction false} CanonicalNeverChanges(config: Config, steps: seq<Step>, proven: nat)
    requires proven <= |steps|
    requires var s := Run(Init(config), steps[..proven]); s.turn.Some? && s.turn.value.identity.canonical.Some?
    requires forall k :: proven <= k < |steps| ==> !ReplacesCanonical(Run(Init(config), steps[..k]), steps[k])
    ensures var s, r := Run(Init(config), steps[..proven]), Run(Init(config), steps);
      && s.turn.value.epoch <= r.epoch
      && (r.turn.Some? && r.turn.value.epoch == s.turn.value.epoch
          ==> r.turn.value.identity.canonical == s.turn.value.identity.canonical)
  {
    RunShaped(config, steps[..proven]);
    if proven == |steps| {
      assert steps[..proven] == steps;
    } else {
      var n := |steps| - 1;
      assert forall k :: 0 <= k <= n ==> steps[..n][..k] == steps[..k];
      CanonicalNeverChanges(config, steps[..n], proven);
      RunShaped(config, steps[..n]);
      StaysProven(Run(Init(config), steps[..n]), steps[n], Run(Init(config), steps[..proven]).turn.value);
    }
  }

  /** The turn of that epoch, if it is still there, has that canonical id. */
  predicate ProvenAs(s: State, t: Turn) {
    && t.identity.canonical.Some? && t.epoch <= s.epoch
    && (s.turn.Some? && s.turn.value.epoch == t.epoch ==> s.turn.value.identity.canonical == t.identity.canonical)
  }

  lemma StaysProven(s: State, step: Step, t: Turn)
    requires Shaped(s) && ProvenAs(s, t) && !ReplacesCanonical(s, step)
    ensures ProvenAs(Next(s, step), t)
  {
    NextKept(s, step);
    if Next(s, step).turn.Some? && s.turn.Some? && s.turn.value.identity.canonical.Some? {
      FirstProofWins(s, step);
    }
  }

  lemma ResponseKeepsCanonical(s: State, id: Option<Id>, now: int)
    requires Shaped(s) && s.point.AwaitRoot? && s.turn.value.identity.canonical.Some?
    ensures SameCanonical(s, OnRootResponse(s, id, now))
  {
    var responseId := if id.Some? then id else s.turn.value.identity.nativeId;
    if !ResponseContradicts(s.turn.value, responseId) {
      BoundKeepsCanonical(s, responseId);
      SettledKeepsCanonical(s, responseId, now);
    }
  }

  lemma BoundKeepsCanonical(s: State, id: Option<Id>)
    requires Shaped(s) && s.point.AwaitRoot? && s.turn.value.identity.canonical.Some?
    requires !ResponseContradicts(s.turn.value, id)
    ensures SameCanonical(s, Bound(s, id))
  {
  }

  lemma SettledKeepsCanonical(s: State, id: Option<Id>, now: int)
    requires s.turn.Some? && Bound(s, id).turn.value.identity.canonical.Some?
    ensures SameCanonical(Bound(s, id), Settled(s, id, now))
  {
  }

  predicate Unsettled(s: State) {
    s.turn.Some? && !s.turn.value.settlement.completed
  }

  /** A later exact `turn/started` agrees with the proven id or fences. */
  lemma LaterStartAgreesOrFences(s: State, id: Id, native: NativeTurn)
    requires !s.fenced && s.turn.Some? && s.turn.value.identity.canonical.Some?
    requires |Exact(native, s.turn.value.clientId)| == 1
    ensures Next(s, TurnStarted(Some(id), native)).fenced <==> s.turn.value.identity.canonical != Some(id)
  {
  }

  /** A later exact completion agrees or fences only where it counts as a proof:
      before the response to the start of a steerable root that has not grown.
      Elsewhere a contradicting one settles the turn under the other native id,
      or leaves a grown group to a lookup. */
  lemma ExactCompletionAgreesOrFences(s: State, id: Id, native: NativeTurn)
    requires !s.fenced && Unsettled(s) && s.turn.value.identity.canonical.Some?
    requires |Exact(native, s.turn.value.clientId)| == 1
    ensures var t, r := s.turn.value, Next(s, TurnCompleted(Some(id), native));
      var proof := !t.request.accepted && t.request.pending && SteerableRoot(t);
      && (r.fenced <==> t.identity.canonical != Some(id) && proof && !InGroupMode(t))
      && (t.identity.canonical != Some(id) && InGroupMode(t) ==> Unsettled(r) && r.turn.value.settlement.completionSeen)
      && (t.identity.canonical != Some(id) && !proof && !InGroupMode(t) && Terminal(native) ==>
            && r.turn.Some? && r.turn.value.settlement.completed && r.turn.value.phase == t.phase
            && r.turn.value.identity.canonical == t.identity.canonical
            && r.turn.value.identity.nativeId == (if native.id.Some? then native.id else t.identity.nativeId)
            && r.turn.value.texts.final == Rebuild(native, Exact(native, t.clientId)[0]))
  {
  }

  /** And so does the root response itself, however late it comes. */
  lemma {:induction false} ResponseAgreesOrFences(s: State, id: Id, now: int)
    requires Shaped(s) && !s.fenced && s.point.AwaitRoot? && !s.turn.value.settlement.completed
    ensures Next(s, RootResponse(Some(id), now)).fenced
       <==> s.turn.value.identity.canonical.Some? && s.turn.value.identity.canonical != Some(id)
  {
    if !ResponseContradicts(s.turn.value, Some(id)) {
      AgreedResponseNeverFences(s, id, now);
    }
  }

  lemma AgreedResponseNeverFences(s: State, id: Id, now: int)
    requires Shaped(s) && !s.fenced && s.point.AwaitRoot? && !s.turn.value.settlement.completed
    requires !ResponseContradicts(s.turn.value, Some(id))
    ensures !OnRootResponse(s, Some(id), now).fenced
  {
    var s0 := Bound(s, Some(id));
    SettlingKeepsIdentity(s0);
    var s1 := SettleAfterResponse(s0);
    var s2 := WithTurn(s1, s1.turn.value.(buffers := s1.turn.value.buffers.(notes := [])));
    AgreedReplayNeverFences(s2, s1.turn.value.buffers.notes, now);
    PendingNeverFences(Settled(s, Some(id), now), s.turn.value.buffers.completions, now);
  }

  lemma SettlingKeepsIdentity(s: State)
    requires s.turn.Some?
    ensures SettleAfterResponse(s).turn.value.identity == s.turn.value.identity
    ensures SettleAfterResponse(s).fenced == s.fenced
  {
    assert ResumeBuffered(s).turn.value.identity == s.turn.value.identity;
  }

  lemma PendingNeverFences(s: State, pending: seq<NativeTurn>, now: int)
    requires s.turn.Some?
    ensures SettlePending(s, pending, now).fenced == s.fenced
  {
  }

  lemma {:induction false} AgreedReplayNeverFences(s: State, notes: seq<Notification>, now: int)
    requires s.turn.Some? && !s.fenced && s.turn.value.identity.nativeId.Some?
    requires s.turn.value.identity.canonical == s.turn.value.identity.nativeId
    ensures !ReplayAll(s, notes, now).fenced
    decreases |notes|
  {
    if notes != [] {
      if Some(notes[0].id) == s.turn.value.identity.nativeId {
        AgreedNoteNeverFences(s, notes[0], now);
      }
      AgreedReplayNeverFences(ReplayOne(s, notes[0], now), notes[1..], now);
    }
  }

  lemma AgreedTrackNeverFences(s: State, id: Id, native: NativeTurn)
    requires s.turn.Some? && s.turn.value.identity.nativeId == s.turn.value.identity.canonical == Some(id)
    ensures var r := Tracked(s, id, native);
      r.fenced == s.fenced && r.turn.value.identity == s.turn.value.identity
  {
  }

  lemma AgreedNoteNeverFences(s: State, note: Notification, now: int)
    requires s.turn.Some? && !s.fenced && s.turn.value.identity.nativeId == Some(note.id)
    requires s.turn.value.identity.canonical == s.turn.value.identity.nativeId
    ensures !Replayed(s, note, now).fenced
    ensures Replayed(s, note, now).turn.value.identity == s.turn.value.identity
  {
    if note.StartedNote? {
      AgreedTrackNeverFences(s, note.id, note.turn);
      AgreedTrackNeverFences(s.(nativeActive := Some(note.id)), note.id, note.turn);
    }
  }
}
