/**
 From the first prompt to the pane it ends up in: the three-state delivery of a
 fresh first turn, the engagement that wraps it, the init decision, the queue
 decision, and the verified kill of a stale pane.
 */
module RpcLifecycle {
  import opened Options

  // ---------------------------------------------------------------------------
  // Eligibility
  // ---------------------------------------------------------------------------

  datatype CliRuntime = Configured(executable: nat) | LegacyPath | Unstructured

  /** `hasPrompt`, `hasSessionId` and the like say that a field is not empty. */
  datatype Config = Config(
    rpcInput: bool, capableCli: bool, onTmux: bool, adopts: bool, readIsolation: bool, sandbox: bool, sandboxForced: bool,
    approvalGated: bool, hasStartupCommands: bool, hasWrapper: bool, runtime: CliRuntime, pathOverride: Option<nat>,
    hasPrompt: bool, resume: bool, hasSessionId: bool)

  predicate WantsResume(cfg: Config) {
    cfg.resume && cfg.hasSessionId
  }

  predicate RuntimeEligible(cfg: Config) {
    match cfg.runtime
    case Configured(executable) => cfg.pathOverride == Some(executable)
    case LegacyPath => false
    case Unstructured => cfg.pathOverride.None?
  }

  predicate Eligible(cfg: Config) {
    && cfg.rpcInput && cfg.capableCli && cfg.onTmux && !cfg.adopts && !cfg.readIsolation && !cfg.sandbox && !cfg.sandboxForced
    && !cfg.approvalGated && !cfg.hasStartupCommands && !cfg.hasWrapper && RuntimeEligible(cfg)
    && (cfg.hasPrompt || WantsResume(cfg))
  }

  // ---------------------------------------------------------------------------
  // The engagement fence
  // ---------------------------------------------------------------------------

  datatype FenceEvent = Began | Invalidated | Died(lease: nat)

  /** Did anything replace the lease taken after `taken` events? */
  predicate Replaced(events: seq<FenceEvent>, taken: nat)
    requires taken <= |events|
  {
    exists k :: taken <= k < |events| && !events[k].Died?
  }

  predicate ReportedDead(events: seq<FenceEvent>, taken: nat, lease: nat)
    requires taken <= |events|
  {
    exists k :: taken <= k < |events| && events[k] == Died(lease)
  }

  function Epochs(events: seq<FenceEvent>): nat {
    if events == [] then 0
    else Epochs(events[..|events| - 1]) + (if events[|events| - 1].Died? then 0 else 1)
  }

  /** `history` is every call that changed the fence. */
  class RpcEngagementFence {
    var epoch: nat
    var deadEpoch: Option<nat>
    ghost var history: seq<FenceEvent>

    ghost predicate Valid()
      reads this
    {
      && epoch == Epochs(history)
      && (deadEpoch.Some? <==> DiedSinceLast(history))
      && (deadEpoch.Some? ==> deadEpoch.value == epoch)
    }

    constructor ()
      ensures Valid() && history == []
    {
      epoch, deadEpoch, history := 0, None, [];
    }

    method Begin() returns (lease: nat)
      requires Valid()
      modifies this
      ensures Valid() && history == old(history) + [Began] && lease == Epochs(history)
    {
      assert (history + [Began])[..|history|] == history;
      epoch, deadEpoch, history := epoch + 1, None, history + [Began];
      lease := epoch;
    }

    method Invalidate()
      requires Valid()
      modifies this
      ensures Valid() && history == old(history) + [Invalidated]
    {
      assert (history + [Invalidated])[..|history|] == history;
      epoch, deadEpoch, history := epoch + 1, None, history + [Invalidated];
    }

    method MarkDead(lease: nat)
      requires Valid()
      modifies this
      ensures Valid() && history == old(history) + [Died(lease)]
    {
      assert (history + [Died(lease)])[..|history|] == history;
      history := history + [Died(lease)];
      if lease == epoch {
        deadEpoch := Some(lease);
      }
    }

    /** A lease taken by `Begin` is live exactly when nothing began or was
        invalidated since, and its own engine was not reported dead. */
    method IsLive(lease: nat, ghost taken: nat) returns (live: bool)
      requires Valid() && 0 < taken <= |history| && history[taken - 1] == Began && lease == Epochs(history[..taken])
      ensures live <==> !Replaced(history, taken) && !ReportedDead(history, taken, lease)
    {
      LeaseCurrent(history, taken);
      LeaseDead(history, taken);
      live := lease == epoch && deadEpoch != Some(lease);
    }
  }

  /** A death of the current epoch was reported since the last new epoch. */
  predicate DiedSinceLast(events: seq<FenceEvent>) {
    events != [] && events[|events| - 1].Died?
      && (events[|events| - 1].lease == Epochs(events[..|events| - 1]) || DiedSinceLast(events[..|events| - 1]))
  }

  lemma {:induction false} LeaseCurrent(events: seq<FenceEvent>, taken: nat)
    requires taken <= |events|
    ensures Epochs(events[..taken]) <= Epochs(events)
    ensures Epochs(events[..taken]) == Epochs(events) <==> !Replaced(events, taken)
  {
    if taken < |events| {
      var n := |events| - 1;
      assert events[..n][..taken] == events[..taken];
      LeaseCurrent(events[..n], taken);
      if Replaced(events[..n], taken) {
        var k :| taken <= k < n && !events[..n][k].Died?;
        assert !events[k].Died?;
      }
    } else {
      assert events[..taken] == events;
    }
  }

  lemma {:induction false} LeaseDead(events: seq<FenceEvent>, taken: nat)
    requires 0 < taken <= |events| && !events[taken - 1].Died?
    ensures !Replaced(events, taken) ==>
      (DiedSinceLast(events) <==> ReportedDead(events, taken, Epochs(events)))
  {
    if taken < |events| {
      var n := |events| - 1;
      LeaseDead(events[..n], taken);
      if !Replaced(events, taken) {
        assert forall k :: taken <= k < n ==> events[..n][k] == events[k];
        assert events[n].Died?;
      }
    }
  }

  // ---------------------------------------------------------------------------
  // The first turn
  // ---------------------------------------------------------------------------

  datatype RolloutProbe = Landed | NoEvidence | ProbeFailed

  /** The frame left the socket; an acknowledgement came back. An ack needs a
      frame. */
  datatype FirstTurn = FirstTurn(dispatched: bool, acked: bool, probe: RolloutProbe)

  datatype FirstOutcome = Accepted | NotSent | Ambiguous

  function SendFirstTurn(turn: FirstTurn): FirstOutcome {
    if turn.dispatched && turn.acked then Accepted
    else if !turn.dispatched then NotSent
    else if turn.probe.Landed? then Accepted
    else Ambiguous
  }

  /** What an engagement meets: setup, the first turn, a replacement or death of
      the engine in between, and a failure of the bookkeeping after delivery. */
  datatype Engagement = Engagement(
    setupFails: bool, turn: FirstTurn, superseded: bool, died: bool, bookkeepingFails: bool)

  datatype EngageResult = Outcome(first: FirstOutcome) | Resumed | NotEngaged | ThrewSuperseded | ThrewDied

  function Engage(cfg: Config, e: Engagement): EngageResult {
    if !Eligible(cfg) then NotEngaged
    else if e.superseded then ThrewSuperseded
    else if e.setupFails then NotEngaged
    else if WantsResume(cfg) then (if e.died || e.bookkeepingFails then NotEngaged else Resumed)
    else
      var first := SendFirstTurn(e.turn);
      if e.died then (if first.NotSent? then NotEngaged else ThrewDied)
      else if first.NotSent? then NotEngaged
      else if e.bookkeepingFails then NotEngaged
      else Outcome(first)
  }

  /** `turn/start` frames of the first prompt that left the socket. */
  function Dispatches(cfg: Config, e: Engagement): nat {
    if Eligible(cfg) && !e.setupFails && !WantsResume(cfg) && e.turn.dispatched then 1 else 0
  }

  // ---------------------------------------------------------------------------
  // Killing a stale pane
  // ---------------------------------------------------------------------------

  datatype Liveness = Live | Gone | Unknown

  const KILL_ATTEMPTS := 4

  predicate KillVerifies(answers: nat -> Liveness, attempts: nat) {
    exists k :: 0 <= k <= attempts && answers(k).Gone?
  }

  /** Probe `k` gets `answers(k)`. True only on an authoritative `gone`, which is
      then the last probe made; at most one probe more than the attempts. */
  method KillAndVerify(answers: nat -> Liveness, attempts: nat) returns (gone: bool, kills: nat, probes: nat)
    ensures gone == KillVerifies(answers, attempts)
    ensures 1 <= probes <= attempts + 1
    ensures gone ==> answers(probes - 1).Gone?
    ensures forall k :: 0 <= k < probes - 1 ==> !answers(k).Gone?
    ensures !gone ==> probes == attempts + 1
    ensures kills == if probes <= attempts then probes else attempts
  {
    kills, probes := 0, 0;
    for attempt := 0 to attempts
      invariant kills == probes == attempt
      invariant forall k :: 0 <= k < probes ==> !answers(k).Gone?
    {
      kills := kills + 1;
      var answer := answers(probes);
      probes := probes + 1;
      if answer.Gone? {
        return true, kills, probes;
      }
    }
    gone := answers(probes).Gone?;
    probes := probes + 1;
  }

  // ---------------------------------------------------------------------------
  // The init decision
  // ---------------------------------------------------------------------------

  datatype Pane = NoLivePane | RemotePane | NativePane

  datatype Decision = Decision(engaged: bool, queuePrompt: bool, abortSpawn: bool)

  datatype Effect = Prepared | EngageCalled | KillCalled | TornDown | Notified

  /** The decision (None when the engagement throws) and the effects in order. */
  datatype InitResult = InitResult(decision: Option<Decision>, effects: seq<Effect>)

  const NONE := Decision(false, false, false)

  function Orchestrate(cfg: Config, pane: Pane, e: Engagement, answers: nat -> Liveness): InitResult {
    if !Eligible(cfg) || pane.NativePane? then InitResult(Some(NONE), [])
    else
      var before := [Prepared, EngageCalled];
      var gone := KillVerifies(answers, KILL_ATTEMPTS);
      match Engage(cfg, e)
      case ThrewSuperseded => InitResult(None, before)
      case ThrewDied => InitResult(None, before)
      case NotEngaged =>
        if pane.NoLivePane? then InitResult(Some(NONE), before)
        else if gone then InitResult(Some(NONE), before + [KillCalled])
        else InitResult(Some(Decision(false, false, true)), before + [KillCalled, Notified])
      case Resumed =>
        if pane.NoLivePane? then InitResult(Some(Decision(true, true, false)), before) else ReplacePane(before, gone)
      case Outcome(first) =>
        if pane.RemotePane? then ReplacePane(before, gone)
        else if first.Ambiguous? then InitResult(Some(Decision(true, false, false)), before + [Notified])
        else InitResult(Some(Decision(true, false, false)), before)
  }

  /** An engaged engine needs the stale `--remote` pane out of the way. */
  function ReplacePane(before: seq<Effect>, gone: bool): InitResult {
    if gone then InitResult(Some(Decision(true, true, false)), before + [KillCalled])
    else InitResult(Some(Decision(false, false, true)), before + [KillCalled, TornDown, Notified])
  }

  predicate ShouldQueueInitialPrompt(hasPrompt: bool, rpcActive: bool, queuePrompt: bool, viaArgs: bool, defer: bool) {
    hasPrompt && (!rpcActive || queuePrompt) && (!viaArgs || defer)
  }

  /** Init spawned a pane. */
  predicate Spawned(r: InitResult) {
    r.decision.Some? && !r.decision.value.abortSpawn
  }

  /** Prompts put on the queue, to be pasted or sent when the pane is ready. */
  function Queued(cfg: Config, r: InitResult): nat {
    if Spawned(r) && ShouldQueueInitialPrompt(cfg.hasPrompt, r.decision.value.engaged, r.decision.value.queuePrompt, false, false)
    then 1 else 0
  }

  function Deliveries(cfg: Config, pane: Pane, e: Engagement, answers: nat -> Liveness): nat {
    (if pane.NativePane? then 0 else Dispatches(cfg, e)) + Queued(cfg, Orchestrate(cfg, pane, e, answers))
  }

  // ---------------------------------------------------------------------------
  // What the lifecycle promises
  // ---------------------------------------------------------------------------

  /** A fresh first prompt left the socket, and init still goes on to queue it:
      either the bookkeeping after delivery failed, or a live `--remote` pane was
      found for a session that is not a resume. */
  predicate RedeliversFirstPrompt(cfg: Config, pane: Pane, e: Engagement, answers: nat -> Liveness) {
    && Eligible(cfg) && !WantsResume(cfg) && !pane.NativePane?
    && !e.setupFails && !e.superseded && !e.died && e.turn.dispatched
    && (pane.NoLivePane? ==> e.bookkeepingFails)
    && (pane.RemotePane? ==> KillVerifies(answers, KILL_ATTEMPTS))
  }

  /** The first prompt is delivered at most once end to end, in every case but
      those. */
  lemma FirstPromptAtMostOnce(cfg: Config, pane: Pane, e: Engagement, answers: nat -> Liveness)
    requires cfg.hasPrompt
    ensures Deliveries(cfg, pane, e, answers) <= 1 <==> !RedeliversFirstPrompt(cfg, pane, e, answers)
  {
  }

  /** A fresh session on tmux with a prompt and nothing that excludes RPC. */
  const FRESH := Config(true, true, true, false, false, false, false, false, false, false, Unstructured, None, true, false, false)

  const DELIVERED := FirstTurn(true, true, NoEvidence)

  /** Both cases happen: the first turn is acknowledged, and its prompt is queued
      again, after a bookkeeping error and behind a replaced remote pane. */
  lemma FirstPromptDeliveredTwice(answers: nat -> Liveness)
    ensures Deliveries(FRESH, NoLivePane, Engagement(false, DELIVERED, false, false, true), answers) == 2
    ensures KillVerifies(answers, KILL_ATTEMPTS)
        ==> Deliveries(FRESH, RemotePane, Engagement(false, DELIVERED, false, false, false), answers) == 2
  {
  }

  /** And it is never lost: when init spawns a pane, exactly one delivery was made
      or queued. */
  lemma FirstPromptNotLost(cfg: Config, pane: Pane, e: Engagement, answers: nat -> Liveness)
    requires cfg.hasPrompt && !RedeliversFirstPrompt(cfg, pane, e, answers)
    requires Spawned(Orchestrate(cfg, pane, e, answers))
    ensures Deliveries(cfg, pane, e, answers) == 1
  {
  }

  /** The prompt is queued after a dispatched fresh turn only in those cases; an
      unconfirmed first turn is never queued, and the user is told. */
  lemma AmbiguousIsNeverResent(cfg: Config, e: Engagement, answers: nat -> Liveness)
    requires Engage(cfg, e) == Outcome(Ambiguous)
    ensures var r := Orchestrate(cfg, NoLivePane, e, answers);
      Spawned(r) && r.decision.value.engaged && Queued(cfg, r) == 0 && Notified in r.effects
  {
  }

  /** A session is engaged exactly on an engine that neither died nor was replaced,
      with its bookkeeping done: a resume without a first turn, a fresh one whose
      first frame left. */
  lemma EngagesExactly(cfg: Config, e: Engagement)
    ensures var sound := Eligible(cfg) && !e.superseded && !e.setupFails && !e.died && !e.bookkeepingFails;
      && (Engage(cfg, e) == Resumed <==> sound && WantsResume(cfg))
      && (Engage(cfg, e) == Outcome(Accepted)
          <==> sound && !WantsResume(cfg) && e.turn.dispatched && (e.turn.acked || e.turn.probe == Landed))
      && (Engage(cfg, e) == Outcome(Ambiguous)
          <==> sound && !WantsResume(cfg) && e.turn.dispatched && !e.turn.acked && e.turn.probe != Landed)
      && Engage(cfg, e) != Outcome(NotSent)
  {
  }

  /** An engine that died while it was engaged is never the session's engine:
      init throws once a fresh first frame left, and otherwise falls back to the
      paste path, where a resume queues its prompt. */
  lemma DeadEngineIsNotEngaged(cfg: Config, pane: Pane, e: Engagement, answers: nat -> Liveness)
    requires e.died && !e.superseded
    ensures var r := Orchestrate(cfg, pane, e, answers);
      && (r.decision.Some? ==> !r.decision.value.engaged && TornDown !in r.effects)
      && (r.decision.None? <==>
            Eligible(cfg) && !pane.NativePane? && !e.setupFails && !WantsResume(cfg) && e.turn.dispatched)
      && (Spawned(r) && cfg.hasPrompt ==> Queued(cfg, r) == 1)
  {
  }

  /** A prompt that is passed in the arguments is pasted too only if it was deferred
      there; the engine's own prompt only if init asked for it. */
  lemma PromptIsQueuedExactly(rpcActive: bool, queuePrompt: bool, viaArgs: bool, defer: bool)
    ensures !ShouldQueueInitialPrompt(false, rpcActive, queuePrompt, viaArgs, defer)
    ensures rpcActive && !queuePrompt ==> !ShouldQueueInitialPrompt(true, rpcActive, queuePrompt, viaArgs, defer)
    ensures viaArgs && !defer ==> !ShouldQueueInitialPrompt(true, rpcActive, queuePrompt, viaArgs, defer)
    ensures (!rpcActive || queuePrompt) && (!viaArgs || defer)
      ==> ShouldQueueInitialPrompt(true, rpcActive, queuePrompt, viaArgs, defer)
  {
  }

  /** A first turn counts as accepted only on an ack or rollout evidence, and as
      safe to paste only if its frame never left. */
  lemma DeliveryIsThreeState(turn: FirstTurn)
    ensures SendFirstTurn(turn) == NotSent <==> !turn.dispatched
    ensures SendFirstTurn(turn) == Accepted <==> turn.dispatched && (turn.acked || turn.probe == Landed)
  {
  }

  /** A stale pane survives exactly for an ineligible session: there init spawns
      over a live `--remote` pane without looking at it. Everywhere else it spawns
      only after a kill whose last probe answered `gone`, or aborts, and tears down
      an engine that was engaged. */
  lemma NoStalePaneSurvives(cfg: Config, e: Engagement, answers: nat -> Liveness)
    ensures var r := Orchestrate(cfg, RemotePane, e, answers);
      && (Spawned(r) && KillCalled !in r.effects <==> !Eligible(cfg))
      && (Spawned(r) && Eligible(cfg) ==> KillVerifies(answers, 4))
      && (r.decision.Some? ==>
            (r.decision.value.abortSpawn <==> Eligible(cfg) && !KillVerifies(answers, 4)))
      && (r.decision.Some? && r.decision.value.abortSpawn ==>
            !r.decision.value.engaged && Notified in r.effects
            && (TornDown in r.effects <==> !Engage(cfg, e).NotEngaged?))
  {
    var r := Orchestrate(cfg, RemotePane, e, answers);
    if Eligible(cfg) && r.decision.Some? {
      assert r.effects[2] == KillCalled;
      if r.decision.value.abortSpawn {
        assert r.effects[|r.effects| - 1] == Notified;
        if !Engage(cfg, e).NotEngaged? {
          assert r.effects[3] == TornDown;
        }
      }
    }
  }

  /** The session that was fresh above, restored with a sandbox by now. */
  const SANDBOXED := FRESH.(sandbox := true, resume := true, hasSessionId := true)

  /** Its dead viewer is spawned over, although a kill would have verified. */
  lemma StalePaneSurvives(e: Engagement, answers: nat -> Liveness)
    ensures var r := Orchestrate(SANDBOXED, RemotePane, e, answers);
      Spawned(r) && !r.decision.value.engaged && r.effects == []
    ensures Orchestrate(SANDBOXED.(sandbox := false), RemotePane, e, answers).effects != []
  {
  }

  /** What keeps a session out of RPC, whatever else holds. */
  predicate Excluded(cfg: Config) {
    || !cfg.rpcInput || !cfg.capableCli || !cfg.onTmux
    || cfg.adopts || cfg.readIsolation || cfg.sandbox || cfg.sandboxForced || cfg.approvalGated
    || cfg.hasStartupCommands || cfg.hasWrapper
    || (cfg.runtime.Unstructured? && cfg.pathOverride.Some?) || cfg.runtime.LegacyPath?
    || (cfg.runtime.Configured? && cfg.pathOverride != Some(cfg.runtime.executable))
    || (!cfg.hasPrompt && !(cfg.resume && cfg.hasSessionId))
  }

  /** Init touches nothing exactly for those sessions and for native panes. */
  lemma LeftAloneExactly(cfg: Config, pane: Pane, e: Engagement, answers: nat -> Liveness)
    ensures Orchestrate(cfg, pane, e, answers).effects == [] <==> Excluded(cfg) || pane == NativePane
    ensures Excluded(cfg) || pane == NativePane ==>
      Orchestrate(cfg, pane, e, answers).decision == Some(Decision(false, false, false))
  {
  }

  /** A pane is only ever killed after the engine was readied, and a native pane
      or an ineligible session is left alone. */
  lemma EngineBeforePane(cfg: Config, pane: Pane, e: Engagement, answers: nat -> Liveness)
    ensures var effects := Orchestrate(cfg, pane, e, answers).effects;
      && (!Eligible(cfg) || pane == NativePane ==> effects == [])
      && (KillCalled in effects ==> pane == RemotePane && effects[..3] == [Prepared, EngageCalled, KillCalled])
      && (forall k :: 0 <= k < |effects| && effects[k].TornDown? ==> k > 2)
  {
  }
}
