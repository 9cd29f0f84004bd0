# botmux runner verification

A Dafny 4.11 model of the parts of botmux that decide which answer belongs to
which message, with proofs of what they promise. `dafny verify dfyconfig.toml`
checks the whole project.

## What is modelled

**The ordered-steer driver of the Codex App runner** (`src/codex-app-runner.ts`).
One process takes a FIFO of inputs, starts or steers native turns on an
app-server whose responses and notifications arrive in almost any order, and owes
each input one attributed final.

- `GroupIdentity` holds native turn records and the ordered-group check.
- `RunnerSteps` is the driver as a state machine: `Next` has one case per handler,
  each running up to its next suspension point. A `Step` is anything that can
  happen to the runner: an input line, a response or error of the root RPC, a
  steer reply, a notification, a history page set, the idle timer. A step whose
  event cannot occur leaves the state alone.
- `RunnerDriver` is the same driver in the source's form: a `Runner` object and
  an `ActiveTurn` object whose handlers and loops update fields in place. Each
  handler equals its `RunnerSteps` function on the object's `View`, and `Drive`
  shows that a whole life of the object is a run of the state machine.
- `RunnerInvariant` proves what every reachable state keeps and how inputs flow,
  whatever arrives. On it rest `RunnerTheorems` (one final per input in order,
  first proof wins), `RunnerFence` (what follows a fence), `RunnerBarrier` (finals
  and outstanding RPCs), `RunnerSettlement` (seen completions, attribution of a
  grown group, the keep-pending wait), `RunnerGate`, `RunnerSteering` and
  `RunnerActivity` (what waits for an autonomous turn, what is steered into one, and
  which one is taken to be active), `RunnerRejection` (a root
  whose RPC fails) and `RunnerAnswers` (the answer of a turn in terms of the
  notifications that came for it). Each says for every state or run exactly when the
  promise holds; `RunnerHazards` builds concrete runs in which the code breaks it.

**The control channel** between runner and worker: `FinalTransaction` (chunking
encoder and assembler of one final), `ControlChannel` (the two ends: acked marker
queue, contiguity fence, replay window) and `ControlWorld` (both ends over a link
that may drop at any moment).

**The hybrid RPC engine** (`src/codex-rpc-engine.ts`): `RpcEngine` is the state
machine that binds native turns to delivery attempts, `RpcCallbacks` explains every
callback it makes, and `RpcEngineObject` is the object that refines it. **Its lifecycle** (`src/codex-rpc-lifecycle.ts`): `RpcLifecycle`
(first turn, engagement, init, verified kill, engagement fence) and `PaneTree`
(bounded breadth-first search of a process tree).

**Three smaller cores**: `DshTurn` (receipt-boundary replay of a dsh turn),
`ConsumerProfiles` (meeting-consumer profile selection) and `SseSplitter` (the
Mira event-stream splitter).

## Where the code departs from what it says

Thirteen promises made in the source's comments do not hold of the code as written.
Each is kept as the code has it, shown by a concrete run or input, and restated
with the exact condition under which it does hold.

1. A comment at `src/codex-app-runner.ts:2242-2244` says that no follow-up is
   admitted into a turn a reconciliation owns, but `canSteer` (1588-1601) does not
   look at the reconciliation. `OverlapsExactly` names the guards under which a
   lookup and a steer come to share a turn, `ReconciledUnderSteer` is a run.
2. The settlement of a steered turn is meant to wait for its steer (1211-1249),
   but a lookup ends without looking at it (1018-1066), and the root response
   replays completions buffered before the group began to grow through the
   single-turn path (2197-2236, against 1567-1575). `BarrierBreaksExactly`: these
   are exactly the steps that settle a turn under its own steer;
   `FinalsWaitForRpcs`: exactly then a final is emitted under a live steer.
3. The late reply to such a steer removes the queue head without asking whether
   its turn is still the active one (1891-1902). `ConservedExactly`: that step, and
   no other, breaks "one final per input"; `LostInputIsNeverFinalized` and
   `InputLost`: the input it removes never gets one.
4. If that reply is unknown or contradicts the queue, the fence is raised for the
   old turn while another input is being run (1865-1897), and that input still gets
   its final, against 1926-1927. `FenceSealsExactly` gives the condition,
   `FencedEmitsExactly` what a fenced runner emits, `AtMostOneGroupAfterFence` that
   this happens once at most, and `FinalAfterFence` two runs.
5. A group of two or more is to be settled by its own turn only (1567-1575), but a
   lookup that was started for the root alone settles it with what followed the
   root's message (1058-1061), and the root response settles it from the one
   completion of the accepted turn that was buffered before the group grew,
   whichever messages that turn holds (2201-2220): the streamed text stays, or the
   turn's error replaces it. `GrownGroupIsAttributed`: these, and 9, are the only cases;
   `GroupAnsweredForItsRoot` and `GroupAnsweredFromStranger` are runs.
6. A fenced runner is to start no more input (2264-2268), but the two resend branches
   of the root retry loop (2044-2066, 2104-2119) do not look at the fence, and neither does
   `runTurn` when it starts an input that was dequeued before the fence (1957-1980).
   `FencedSendsExactly` and `FencedRunSendsExactly`: it sends if and only if one of
   these three is taken; `RootResentAfterFence` and `LaunchedAfterFence` are runs.
7. Any later exact proof with another id is said to fence (1544-1549). An exact
   completion does so only before the response to the start of a steerable root
   that has not grown. Anywhere else it settles the turn under the other native id
   (1274-1276, 1314-1316) or leaves the group to a lookup
   (`ExactCompletionAgreesOrFences`, `ContradictionSettles`).
8. An exact completion that precedes the start response, whose `turn.id` is not
   its `params.turnId`, is recorded as proof (1261-1313), and the response that
   agrees with it neither settles nor looks it up (2177-2195). `StrandsExactly`:
   exactly such a response leaves a seen completion with nothing to wait for, and
   `StrandedStays`: only another completion or a fence can still end the turn.
9. Notes replayed after a group settled on the start response (2196-2200,
   1366-1374) overwrite its answer. `ResponseAttributesGroup` says exactly what
   the answer is.
10. A native turn id that 1024 later turns have pushed out of the engine's retired
    set is bound again if a response names it, and called back twice
    (`src/codex-rpc-engine.ts:200-202, 237-241`). `NextKeeps`: exactly that step
    breaks "once".
11. An error thrown by the bookkeeping after a fresh first turn was dispatched makes
    `engageCodexRpc` report `not-engaged` (`src/worker.ts:1404-1434`), after which
    the prompt is pasted a second time. `FirstPromptAtMostOnce` names the exact
    cases, `FirstPromptDeliveredTwice` shows both.
12. A surviving `--remote` pane is to be replaced before anything is spawned, because
    input into it would be dropped (`src/codex-rpc-lifecycle.ts:307-310`), but a
    session that is no longer eligible is spawned over it without a look at the pane
    (277). `NoStalePaneSurvives`: exactly then; `StalePaneSurvives` is an input.
13. A head that may not be steered is never to be merged into an autonomous Goal turn
    (`src/codex-app-runner.ts:2269-2275`), but the gate is passed when the head leaves
    the queue, and `runTurn` reads the active turn again after an await (1957-1972):
    if one Goal turn ends and the next starts within one chunk of output, the head is
    steered into the second. `PlainMergedExactly`: such an input is steered if and only
    if a native turn is active when its own is started; `MergedBehindGate`: only one
    that started in between can be; `PlainMerged` is a run.

## Environment assumptions

- A handler runs to its next suspension point before the next event is handled.
- A start rejection and its failure final are one step.
- The app-server, the worker's verdict on a marker, process probes and rollout
  evidence are arbitrary: they are parameters of the steps and functions.
- Process listings are one fixed snapshot per search.

## Model

| member | source | states |
|---|---|---|
| GroupIdentity.ExactClientItemIndexes | src/codex-app-runner.ts:914-922 | the scan returns, in order, exactly the positions of the user items with the client id, and nothing for a turn without full items |
| GroupIdentity.VerifyGroupSubsequence | src/codex-app-runner.ts:1612-1633 | the loop decides the ordered-group check with the reason it fails for |
| GroupIdentity.GroupCheckExact | src/codex-app-runner.ts:1603-1633 | the check accepts a full turn if and only if its user items, filtered to the group's sent ids, equal the sent ids in accepted order with no repeats |
| GroupIdentity.LastMemberPosition | src/codex-app-runner.ts:1612-1633 | the accepted position is the last member's user item and no member's item follows it |
| GroupIdentity.SettledTextFollowsLastMember | src/codex-app-runner.ts:931-941 | the rebuilt answer is that of the last final answer strictly after the last member's item, whatever it says; without one it is the native failure if there is one, and empty if not |
| RunnerInvariant.NextKept | src/codex-app-runner.ts:1957-2321 | every step, in every state of that shape, keeps it: turn, steer and queue head agree, and identity, group and lookup are consistent; and unless it loses an input, what waits for a final stays in order, is entered only by an enqueue and cut short only by a fence |
| RunnerInvariant.RunShaped | src/codex-app-runner.ts:2259-2321 | the shape holds after every run, whatever arrives |
| RunnerInvariant.RootResponseKept | src/codex-app-runner.ts:2121-2244 | binding a root response, settling what it held back, replaying notes and completions and admitting the next follow-up lose, double or reorder no input |
| RunnerInvariant.SteerReplyKept | src/codex-app-runner.ts:1843-1911 | accepting, rejecting or losing a steer keeps the shape, and loses no input unless the steer's turn is gone |
| RunnerTheorems.ConservedExactly | src/codex-app-runner.ts:1891-1902 | a step breaks "every input one final, in order" if and only if it is an accepted steer reply for a turn that is no longer active |
| RunnerTheorems.EveryInputOneFinalInOrder | src/codex-app-runner.ts:2259-2321 | in every run without such a step, inputs received are inputs finalized, then held, then queued; a quiescent runner has given every input exactly one final in arrival order; after a fence the finals are a prefix |
| RunnerTheorems.LostInputIsNeverFinalized | src/codex-app-runner.ts:1891-1902 | the input such a step removes has no final and never gets one, however the run goes on |
| RunnerTheorems.NoInputFinalizedTwice | src/codex-app-runner.ts:1929-1955 | in every run finals are in strict arrival order, so no input ever has two, fenced or not |
| RunnerTheorems.HistoriesGrow | src/codex-app-runner.ts:2323-2369 | only an enqueue receives input and no final is retracted |
| RunnerTheorems.EchoedIdRoutesReply | src/codex-app-runner.ts:2331-2354 | a framed line is routed by its reply id or else its sidecar's client id, and a structured input is sent under the same id where client ids are supported; a plain line has none and is never steered |
| RunnerTheorems.SentIdsInOrder | src/codex-app-runner.ts:1605-1611 | the ids a group is checked by are those its members were sent under, in accepted order |
| RunnerTheorems.GroupExpandsInOrder | src/codex-app-runner.ts:1929-1955 | a settled group of n finalizes the next n arrivals: n-1 empty superseded finals and then one real one; a fenced group yields none |
| RunnerTheorems.FirstProofWins | src/codex-app-runner.ts:1550-1565 | a proven canonical id changes if and only if a group lookup answers the group from another turn, which settles it |
| RunnerTheorems.CanonicalNeverChanges | src/codex-app-runner.ts:1542-1565 | over every run a turn keeps the canonical id it was first proven to have, before and after it settles, unless such a lookup answers it |
| RunnerTheorems.ResponseKeepsCanonical | src/codex-app-runner.ts:2121-2149 | the root response, with everything it replays, keeps a proven canonical id |
| RunnerTheorems.LaterStartAgreesOrFences | src/codex-app-runner.ts:1148-1159 | a later exact turn/started fences if and only if it names another id |
| RunnerTheorems.ExactCompletionAgreesOrFences | src/codex-app-runner.ts:1261-1316 | a later exact completion that names another id fences if and only if it precedes the response to the start of a steerable, ungrown root; otherwise a terminal one settles the turn under the other native id, or a grown group is left to a lookup |
| RunnerTheorems.ResponseAgreesOrFences | src/codex-app-runner.ts:2121-2136 | a late root response fences if and only if it contradicts the proven id, whatever it replays |
| RunnerFence.FencedEmitsExactly | src/codex-app-runner.ts:1929-1930 | a fenced runner, in any state, emits a final if and only if it finalizes a turn the fence was not raised for |
| RunnerFence.FenceSealsExactly | src/codex-app-runner.ts:1879-1897 | a fence leaves a turn open if and only if it is raised by the reply to a steer whose turn is gone while another input is being run, and such a reply always raises one |
| RunnerFence.FenceIsTerminal | src/codex-app-runner.ts:1529-1540 | from a fence that leaves no turn open on: no final, no idle state, the fence stays and leaves none open, and nothing is sent if and only if the retry loop does not resend |
| RunnerFence.FencedSendsExactly | src/codex-app-runner.ts:2044-2119 | a fenced runner, in any state, publishes no idle state and sends something if and only if the retry loop resends or an input dequeued before is launched |
| RunnerFence.FencedRunSendsExactly | src/codex-app-runner.ts:2265-2290 | over every continuation of any fence: no idle state, and something is sent if and only if some step is one of those |
| RunnerFence.AtMostOneGroupAfterFence | src/codex-app-runner.ts:1925-1955 | over every continuation of any fence: nothing more is finalized, or exactly one group is, as a whole, and then no turn is open |
| RunnerFence.NoFinalAfterFence | src/codex-app-runner.ts:1914-1930 | over every run in which no fence was raised for the wrong turn, and every continuation, a fenced runner emits no final and no idle state |
| RunnerBarrier.OverlapsExactly | src/codex-app-runner.ts:1588-1601 | a single-root lookup and a steer come to share a turn if and only if the head is steerable into a looked-up turn at an enqueue, an exact start or a lost input, or the root response finds completions that are not the turn's own while it is, or by a buffered start becomes, steered |
| RunnerBarrier.BarrierBreaksExactly | src/codex-app-runner.ts:2197-2236 | a turn is settled under its own steer if and only if its lookup ends first, or the root response finds completions that decide the turn while it is, or by a buffered start becomes, steered |
| RunnerBarrier.ReplayedUnderSteerExactly | src/codex-app-runner.ts:2177-2200 | when the root response comes to the buffered completions, an unsettled turn has a steer outstanding if and only if it had one before, or its proof is exact, the head may be steered and its turn/started is among the buffered notes |
| RunnerBarrier.FinalsWaitForRpcs | src/codex-app-runner.ts:2245-2256 | a final comes only after the root response or for a definitely rejected root, and its group's steer is outstanding if and only if the turn was settled under it |
| RunnerBarrier.NoFinalOvertakesSteer | src/codex-app-runner.ts:2245-2256 | over every run in which no turn is settled under its steer, whatever comes next, no final overtakes a steer of its group |
| RunnerSettlement.StrandsExactly | src/codex-app-runner.ts:2177-2195 | a seen completion is left without a steer, response or lookup to wait for if and only if the root response agrees with a proof whose own record names another id and nothing else that was buffered decides the turn |
| RunnerSettlement.NoCompletionStranded | src/codex-app-runner.ts:1211-1249 | over every run without such a response, a seen completion is settled, or waits for a steer reply, the root response or a lookup |
| RunnerSettlement.StrandedStays | src/codex-app-runner.ts:2177-2245 | a stranded completion stays stranded at every step but another completion or a fence |
| RunnerSettlement.LookupSettles | src/codex-app-runner.ts:1683-1758 | with its RPCs answered a completed turn is owned by a lookup; a group lookup or a failed one settles it whatever the history holds |
| RunnerSettlement.GrownGroupIsAttributed | src/codex-app-runner.ts:1635-1671 | whichever step settles a group of two or more, its answer is an identity error, or that of the only turn in history holding the whole ordered group or of the turn reported under the canonical id: its tail after the last member, or the streamed text if it has no full items; except that a lookup for the root alone answers with what followed the root's message, and the root response as `ResponseAnswers` says |
| RunnerSettlement.ResponseAnswers | src/codex-app-runner.ts:2177-2236 | a turn the root response settles is answered from the completion held back under the canonical id if there is one, overwritten by the last buffered final text; otherwise, from the completions buffered before, by an identity error, or by the streamed text or native error of the one that is the turn's own |
| RunnerSettlement.NoExactCompletionIsBuffered | src/codex-app-runner.ts:1272-1320 | in every run no completion buffered before the response carries the root's client id exactly once |
| RunnerSettlement.KeepPendingWaitsForSilence | src/codex-app-runner.ts:1016-1090 | in every run whose clock does not go back, a wait with a deadline is given up for silence only a full window after every progress of the accepted turn |
| RunnerSettlement.DeadlineFollowsLastSign | src/codex-app-runner.ts:1016-1018 | in every run the keep-pending deadline is one window after the last recorded sign |
| RunnerSettlement.KeepPendingEndsExactly | src/codex-app-runner.ts:1068-1099 | a fruitless scan ends the wait exactly on the accepted turn's own terminal record, an unarmed deadline, or one full silent window |
| RunnerSettlement.ForeignTurnsDoNotEndTheWait | src/codex-app-runner.ts:1025-1031 | another native turn starting, progressing or completing neither settles the waiting turn nor moves its deadline; an ungrown turn it leaves as it was |
| RunnerSettlement.UnboundWaitFailsClosed | src/codex-app-runner.ts:1005-1018 | in every run, a wait without a native id has armed nothing, and its first fruitless scan settles it with the deadline error |
| RunnerSettlement.HeldCompletionStays | src/codex-app-runner.ts:1219-1231 | whatever arrives, a completion under the proven id that is held back is not overwritten by that of another native turn |
| RunnerGate.LeavesThroughGateExactly | src/codex-app-runner.ts:2259-2280 | a step dequeues an input to start a turn for it if and only if the drain loop runs unfenced on a queue whose head may be started: no native turn is active, or the head may be steered into it; it is the head that leaves, and the rest stays |
| RunnerGate.PlainHeadWaitsForGoal | src/codex-app-runner.ts:2269-2278 | in every run and every continuation through which some native turn stays active, a queue head that may not be steered stays the queue head |
| RunnerGate.IdleOnlyBehindGoal | src/codex-app-runner.ts:1198-1204 | in every run an unfenced runner is idle on a non-empty queue only while a native turn is active that its head may not enter: nothing else sleeps |
| RunnerGate.IdleIsPublishedExactly | src/codex-app-runner.ts:803-819 | an idle state is published if and only if the timer fires on an unfenced runner with nothing queued, under way or autonomous |
| RunnerGate.QuietIsAnnounced | src/codex-app-runner.ts:2302-2317 | in every reachable state, a step that makes the runner quiet leaves the timer armed |
| RunnerGate.GoalStartIsAnnounced | src/codex-app-runner.ts:1180-1189 | a native turn that starts while no turn of the driver is active is advertised as busy at once and calls a due idle state off |
| RunnerGate.WaitingIsAnnounced | src/codex-app-runner.ts:2307-2317 | a head left waiting for a native turn leaves the runner idle and advertised as busy |
| RunnerActivity.GoalOutlivesResponse | src/codex-app-runner.ts:2150-2157 | a native turn that is not the root's own stays active over the root response with all it replays |
| RunnerActivity.ResponseActivates | src/codex-app-runner.ts:2150-2157 | where no other one is active, the native turn the response names is active after it, unless the turn is settled by then |
| RunnerActivity.LookupReleases | src/codex-app-runner.ts:1724-1739 | a lookup that finds the turn leaves the native turn it was found in, and for a group the one it was proven to have, inactive, and any other one as it was |
| RunnerActivity.GivingUpReleases | src/codex-app-runner.ts:963-993 | a lookup that gives the turn up leaves the native turn it was known by inactive, and any other one as it was |
| RunnerSteering.StepSteersOnly | src/codex-app-runner.ts:1794-1842 | besides a root that is launched or resent, a step sends nothing but steers of inputs that may be steered, into the native turn the active turn is proven to have |
| RunnerSteering.PlainMergedExactly | src/codex-app-runner.ts:1957-1972 | in every run only inputs that may be steered are sent as steers, if and only if no other one meets a native turn when its own turn is started |
| RunnerSteering.MergedBehindGate | src/codex-app-runner.ts:2269-2280 | in every run an input that meets a native turn that way left the queue while none was active, and one started since |
| RunnerSteering.ShutGroupStaysShut | src/codex-app-runner.ts:1588-1601 | in every reachable state a group that was closed, settled or fenced, with no steer outstanding, takes no one more, whatever arrives |
| RunnerSteering.ReplyDecides | src/codex-app-runner.ts:1843-1911 | in every reachable state the reply to a steer of the active turn takes the head into the group if it names the steered turn, closes the group and lets the head wait if it is a definite rejection, and otherwise fences with the head still queued |
| RunnerRejection.RequestIsAsSeen | src/codex-app-runner.ts:1974-1994 | in every run, while the root RPC is unanswered, the turn is marked as started if and only if it was launched into a native turn or its own turn/started came; its response is a barrier if and only if it was launched as a start; and it is known by the native turn it was sent into, or one an exact start has proven |
| RunnerRejection.RejectionDecides | src/codex-app-runner.ts:2044-2120 | in every run a rejected root is started instead, sent again in the plain form, fenced because the server may have taken it, or, being seen nowhere, given up with one failure final; a request into a native turn is never given up |
| RunnerAnswers.StreamedTextIsHeard | src/codex-app-runner.ts:1327-1382 | over every run the text of an unsettled turn is, in order, what its own native turn said: the deltas joined and the last final text, of the notifications that came before the response under the id it chose and of those that came under it since |
| RunnerAnswers.OwnCompletionAnswers | src/codex-app-runner.ts:944-960 | over every run a started turn that did not grow and is settled by the end of its own native turn is answered with the last final text heard, else the native error, else the deltas heard; a fence raised for it before its final leaves it without one |
| RunnerAnswers.ExactCompletionAnswers | src/codex-app-runner.ts:1314-1316 | over every run a turn that did not grow and is settled by a completion that holds its message once is answered with what follows that message there, whatever was streamed |
| RunnerAnswers.LookupAnswersPlain | src/codex-app-runner.ts:1056-1099 | over every run a turn that did not grow and is looked up is answered with what follows its message in the one turn that holds it, or with the reason why there is no such turn |
| RunnerAnswers.LookupReadsHistory | src/codex-app-runner.ts:1040-1067 | that answer in terms of the items of the history: an identity error if some ended turn holds the message twice or none holds it, and what follows the message if exactly one ended turn holds it once |
| RunnerAnswers.EarlyCompletionAnswers | src/codex-app-runner.ts:2197-2220 | over every run a turn whose own completion came before the response to its turn/start is answered, once the response names it, with what came under that id before |
| RunnerAnswers.SettledIsAnswered | src/codex-app-runner.ts:1929-1955 | from a settled turn on, over all steps but its own progress and lookups, its last member is answered with its final text or else its stream, or nobody if a fence is raised for it |
| RunnerHazards.ReconciledUnderSteer | src/codex-app-runner.ts:2239-2245 | a run that admits a steer into a turn a lookup owns, and settles it under the steer |
| RunnerHazards.ReplayedUnderSteer | src/codex-app-runner.ts:2201-2220 | a run in which the response replays a buffered completion onto a steered turn |
| RunnerHazards.InputLost | src/codex-app-runner.ts:1891-1902 | the first of these runs continues to a final under the steer and to a quiescent, unfenced runner that received one input more than it finalized |
| RunnerHazards.FinalAfterFence | src/codex-app-runner.ts:1879-1897 | both runs continue to a fence raised for the wrong turn and a final after it |
| RunnerHazards.GroupAnsweredForItsRoot | src/codex-app-runner.ts:1058-1061 | a run in which a group of two is answered from a turn that holds its first message only |
| RunnerHazards.GroupAnsweredFromStranger | src/codex-app-runner.ts:2201-2220 | a run in which the root response settles a group of two from a full turn that holds neither message |
| RunnerHazards.ContradictionSettles | src/codex-app-runner.ts:1314-1316 | a run in which an exact completion of another native turn settles the turn without a fence |
| RunnerHazards.RootResentAfterFence | src/codex-app-runner.ts:2044-2066 | a run that sends a turn/start after a fence raised for that turn |
| RunnerHazards.LaunchedAfterFence | src/codex-app-runner.ts:1957-1980 | a run that sends a turn/start for an input dequeued before the fence |
| RunnerHazards.CompletionStranded | src/codex-app-runner.ts:1298-1313 | a run after which a seen completion waits for nothing |
| RunnerHazards.AnswerOverwritten | src/codex-app-runner.ts:2196-2200 | a run in which the settled answer is replaced by an earlier one |
| RunnerHazards.PlainMerged | src/codex-app-runner.ts:1957-1972 | a run in which a plain line waits for one Goal turn and is then steered into the next one |
| RunnerDriver.Drive | src/codex-app-runner.ts:2259-2321 | a whole life of the mutable runner is a run of the state machine |
| RunnerDriver.Runner.Handle | src/codex-app-runner.ts:1107-1384 | every handler updates the runner exactly as the transition function says |
| RunnerDriver.Runner.TryAdmitSteer | src/codex-app-runner.ts:1794-1842 | admits the queue head exactly when the spec does, and changes nothing otherwise |
| RunnerDriver.Runner.SteerReplied | src/codex-app-runner.ts:1843-1911 | each outcome of the steer RPC, also for a turn that is no longer active |
| RunnerDriver.Runner.RootResponse | src/codex-app-runner.ts:2121-2244 | the whole continuation of the root RPC, with its two replay loops |
| RunnerDriver.Runner.RootError | src/codex-app-runner.ts:2040-2120 | fallback, legacy retry, fence or failure final |
| RunnerDriver.Runner.CollectMatches | src/codex-app-runner.ts:1043-1055 | the scan loop finds the exact matches, a repeated client id and the turn's own terminal record |
| RunnerDriver.Runner.CollectGroupMatches | src/codex-app-runner.ts:1707-1716 | the scan loop finds exactly the terminal turns that hold the whole group |
| RunnerDriver.Runner.CandidateCompletions | src/codex-app-runner.ts:2201-2212 | the filters over buffered completions |
| RunnerDriver.Runner.FinalizeAcceptedGroup | src/codex-app-runner.ts:1929-1955 | the loop emits the group's finals in order |
| FinalTransaction.ChunksAreSent | src/codex-app-runner.ts:687-718 | chunks are non-empty, at most the chunk size and only the last one short; joined they are the bytes sent: the content if it fits, else its first MAX-64 bytes and the notice, never over MAX |
| FinalTransaction.EncodeFinal | src/codex-app-runner.ts:699-718 | the loop emits start, the chunks numbered from 0 and end with the right total |
| FinalTransaction.AssemblesInOrder | src/utils/codex-app-control.ts:2955-3030 | fed one emission in order, the assembler refuses no record and completes exactly at its last one with what was sent |
| FinalTransaction.CompletesOnlyWhole | src/utils/codex-app-control.ts:2958-3030 | whatever records arrive, the assembler completes a final only on one whole transaction: its start, every chunk once, in order and within the bounds, and its end; and delivers just those chunks |
| FinalTransaction.FinalAssembler.AcceptRecord | src/utils/codex-app-control.ts:2958-3030 | the assembler's verdict and new state for any record, forgetting the open transaction on a rejection |
| ControlWorld.QueueIsUnacknowledged | src/codex-app-runner.ts:498-544 | in every run the queue is exactly the contiguous markers after the last acknowledged one |
| ControlWorld.AppliedExactlyOnceInOrder | src/worker.ts:3382-3476 | in every run, over any disconnects, the worker has applied a gap-free, duplicate-free prefix of the emissions, every final whole |
| ControlWorld.DrainedLinkHasAppliedAll | src/codex-app-runner.ts:521-544 | when a live connection has nothing in flight, everything emitted has been applied |
| ControlWorld.QuietLinkHasEmptyQueue | src/worker.ts:3387-3412 | when a live connection has nothing in flight either way, also after replays, everything emitted is acknowledged and the runner's queue is empty |
| ControlWorld.QueueIsBounded | src/codex-app-runner.ts:638-647 | in every run the queue holds at most 2048 markers, and a runner that failed closed holds exactly that many |
| ControlWorld.HonestRecordsAreNeverRefused | src/utils/codex-app-control.ts:2908-2922 | no record that was really emitted is refused by the fence or the assembler, also after a reconnect in the middle of a replayed final |
| ControlWorld.AcksNeverDestroy | src/utils/codex-app-control.ts:2845-2853 | no acknowledgement exceeds what was sent on its connection |
| ControlWorld.FatalIsSilent | src/codex-app-runner.ts:638-644 | past the queue bound nothing more is emitted, written or applied |
| ControlChannel.ControlSender.FlushControlQueue | src/codex-app-runner.ts:521-544 | writes exactly the markers not yet sent on this connection, in order |
| ControlChannel.ControlSender.EmitMarker | src/codex-app-runner.ts:638-647 | numbers and queues the marker, or fails closed at the bound |
| ControlChannel.ControlSender.AckReceived | src/codex-app-runner.ts:617-622 | advances the acked mark and drops exactly the acknowledged markers, or destroys the connection |
| ControlChannel.ControlReceiver.MarkerReceived | src/worker.ts:3382-3476 | acknowledges replays without applying them, holds fragments, applies and commits complete records, destroys the connection otherwise |
| RpcEngine.OrderDoesNotMatter | src/codex-rpc-engine.ts:185-250 | response then terminal, or terminal, other unowned terminals, then response, end in the same engine state with one callback, if the buffer does not overflow in between |
| RpcEngine.OthersDoNotMatter | src/codex-rpc-engine.ts:185-250 | whatever other requests, their answers and timeouts, takes and terminals of other turns come in between, both orders leave the same owners, bindings and requests and the same callbacks up to order, if the waiting terminal is not pushed out of its buffer; and the same retired and unowned turns, if the retired set does not overflow |
| RpcEngine.FirstTerminalWins | src/codex-rpc-engine.ts:216-235 | a second terminal, before or after the response, leaves the callback as the first made it |
| RpcEngine.NextKeeps | src/codex-rpc-engine.ts:727-828 | every step keeps the invariant, and keeps "called back at most once" if and only if it does not bind an id that was called back and then forgotten |
| RpcEngine.NoSecondCallback | src/codex-rpc-engine.ts:211-259 | no run without such a step calls back twice for one native id |
| RpcEngine.DistinctResponsesSuffice | src/codex-rpc-engine.ts:185-209 | distinct native ids per response are enough for that |
| RpcEngine.ForgottenIdIsCalledBackTwice | src/codex-rpc-engine.ts:237-241 | a run of 1025 turns after which the first id, named again, is called back a second time |
| RpcEngine.OneStartAndBoundedBuffers | src/codex-rpc-engine.ts:631-640 | in every run at most one pending request is a turn/start, both buffers hold at most 1024 entries and no id is live and retired |
| RpcEngine.StopCallsBackEveryTurn | src/codex-rpc-engine.ts:512-533 | after stopping, the ids called back are exactly the ids responses ever named, once each |
| RpcEngine.LiveOwnerIsStable | src/codex-rpc-engine.ts:185-203 | a live native turn's owner never changes, it is only released |
| RpcEngine.LateResponseIsIgnored | src/codex-rpc-engine.ts:644-664 | the response of a timed-out request changes nothing, however much later it comes |
| RpcEngine.AnsweredIsOver | src/codex-rpc-engine.ts:727-746 | a request is over once answered, rejected or timed out; a rejection or a timeout that is not fatal touches nothing else |
| RpcEngine.UnownedTerminalIsSilent | src/codex-rpc-engine.ts:217-235 | a terminal no response has claimed is attributed to nobody |
| RpcCallbacks.StepCallsBack | src/codex-rpc-engine.ts:211-263 | each step makes exactly these callbacks: engine-dead for every live turn, in binding order, if the engine dies; stopped for every live turn if it is stopped; the reported status for a live turn; the waiting status for a turn the response binds; and none otherwise |
| RpcCallbacks.EveryCallbackIsExplained | src/codex-rpc-engine.ts:185-263 | in every run a callback answers the attempt whose turn/start response named the native turn; it says finished, failed or aborted only if just that was reported for the turn, and engine-dead or stopped only if the engine died or was stopped while the turn was that attempt's live turn |
| RpcCallbacks.EngineDiesOnce | src/codex-rpc-engine.ts:818-828 | in every run the death of the engine is notified once if it died, and never otherwise |
| RpcEngineObject.Drive | src/codex-rpc-engine.ts:141-165 | a whole life of the mutable engine is a run of the state machine |
| RpcEngineObject.CodexRpcEngine.BindNativeTurn | src/codex-rpc-engine.ts:185-209 | binds, or refuses an id or attempt that is already bound elsewhere and changes nothing |
| RpcEngineObject.CodexRpcEngine.EmitTurnTerminal | src/codex-rpc-engine.ts:211-258 | retires an owned turn with one callback, or buffers the first terminal of an unowned one, evicting the oldest |
| RpcEngineObject.CodexRpcEngine.EmitAllTurnTerminals | src/codex-rpc-engine.ts:256-263 | every live turn gets a terminal, in binding order |
| RpcEngineObject.CodexRpcEngine.Request | src/codex-rpc-engine.ts:631-678 | refuses a second concurrent turn/start; a frame that did not leave leaves nothing pending |
| RpcLifecycle.FirstPromptAtMostOnce | src/codex-rpc-lifecycle.ts:234-245 | RPC dispatches plus queued prompts never exceed one, if and only if neither the bookkeeping after delivery fails nor a fresh session has a live remote pane |
| RpcLifecycle.FirstPromptDeliveredTwice | src/worker.ts:1404-1434 | concrete engagements after which an acknowledged first prompt is queued again |
| RpcLifecycle.FirstPromptNotLost | src/codex-rpc-lifecycle.ts:271-325 | in those cases, when init spawns a pane, exactly one delivery was made or queued |
| RpcLifecycle.PromptIsQueuedExactly | src/codex-rpc-lifecycle.ts:234-245 | a prompt is queued if and only if there is one, RPC is off or init asked for it, and it is not already in the arguments unless deferred |
| RpcLifecycle.AmbiguousIsNeverResent | src/codex-rpc-lifecycle.ts:290-297 | an unconfirmed first turn is never queued, and the user is told |
| RpcLifecycle.DeliveryIsThreeState | src/codex-rpc-engine.ts:463-510 | accepted only on an ack or rollout evidence, safe to paste only if the frame never left |
| RpcLifecycle.EngagesExactly | src/worker.ts:1268-1436 | a session is engaged if and only if its engine neither died nor was replaced and the bookkeeping succeeded: a resume without a first turn, a fresh one, accepted or ambiguous, if its first frame left |
| RpcLifecycle.DeadEngineIsNotEngaged | src/worker.ts:1414-1436 | an engine that died during engagement is never engaged: init throws once a fresh first frame left, and otherwise falls back to the paste path with the prompt queued |
| RpcLifecycle.NoStalePaneSurvives | src/codex-rpc-lifecycle.ts:271-322 | over a live remote pane init spawns without killing it if and only if the session is ineligible; otherwise it spawns only after a kill verified gone, or aborts and tears an engaged engine down |
| RpcLifecycle.StalePaneSurvives | src/codex-rpc-lifecycle.ts:277 | a restored session, sandboxed by now, whose dead remote pane is spawned over |
| RpcLifecycle.EngineBeforePane | src/codex-rpc-lifecycle.ts:271-325 | a pane is killed only after the engine was engaged, and native panes and ineligible sessions are left alone |
| RpcLifecycle.LeftAloneExactly | src/codex-rpc-lifecycle.ts:125-153 | init touches nothing if and only if the session is excluded for one of the listed reasons or its pane is native |
| RpcLifecycle.KillAndVerify | src/codex-rpc-lifecycle.ts:349-363 | true exactly if some probe answers gone, which is then the last one made; at most attempts+1 probes, a kill before each of the first ones |
| RpcLifecycle.RpcEngagementFence.IsLive | src/codex-rpc-lifecycle.ts:61-92 | a lease is live exactly if nothing began or was invalidated since it was taken and its own engine was not reported dead |
| PaneTree.PaneRunsRemoteTui | src/codex-rpc-lifecycle.ts:383-424 | true if and only if a matching process lies at most four child edges below the pane pid; each pid is probed at most once |
| PaneTree.VisitLevel | src/codex-rpc-lifecycle.ts:401-421 | one level visits the unseen pids and collects their children |
| DshTurn.TurnSettlesAsReferenced | src/dsh-runner.ts:532-552 | for every stream and every arrival point of the ack, the turn settles exactly with what was captured between the first receipt of its message and the first idle after it |
| DshTurn.AckPositionDoesNotMatter | src/dsh-runner.ts:682-694 | two arrival points of the ack give the same outcome |
| DshTurn.BeforeReceiptDoesNotMatter | src/dsh-runner.ts:629-636 | nothing before the receipt, in particular no stale idle, has any effect |
| DshTurn.Drive | src/dsh-runner.ts:608-636 | the mutable runner settles as the stepwise turn does |
| DshTurn.DshRunner.TryClaimReceipt | src/dsh-runner.ts:543-552 | finds the first receipt in the buffer and replays only what follows it |
| DshTurn.UsageIsSummed | src/dsh-runner.ts:367-376 | each field of a turn's usage is the sum of that field over its well-formed reports, and there is none without one |
| DshTurn.TextIsJoined | src/dsh-runner.ts:584-592 | the text of a message is that of its text blocks, in order and without separator |
| DshTurn.PendingTurn.HandleSessionEvent | src/dsh-runner.ts:554-606 | replaces the text, adds the usage, keeps the last error |
| ConsumerProfiles.ResolveConsumerProfiles | src/bot-registry.ts:660-765 | profile mode accepts a selection if and only if profiles, defaults and selection are valid, case by case: the explicit ids if there are any, else the defaults, else nothing; on acceptance the result has just those ids in that order; legacy mode likewise |
| ConsumerProfiles.CheckProfiles | src/bot-registry.ts:675-705 | no error exactly if ids are valid and distinct and every sink and listener role has its capability; the map is the first-match lookup |
| ConsumerProfiles.CheckSelection | src/bot-registry.ts:710-764 | no error exactly if the ids are distinct and known and their profiles share no agent, no sink and at most one listener thread |
| ConsumerProfiles.SelectionIsDetermined | src/bot-registry.ts:715-735 | with valid profiles the in-order lookup is the only sequence of profiles with the selected ids |
| SseSplitter.FindSseSeparator | src/mira-runner.ts:147-154 | none if and only if neither LF LF nor CR LF CR LF occurs; otherwise the earliest match of either, with the length of the one that is there |
| SseSplitter.SplitParses | src/mira-runner.ts:285-310 | the batch split is the only way to cut the text at the earliest separator again and again, up to the block that ends the stream, with no separator left over |
| SseSplitter.SeparatorStays | src/mira-runner.ts:147-154 | a separator found in a prefix is still the first one when more text follows |
| SseSplitter.SplitMore | src/mira-runner.ts:285-288 | splitting a prefix and continuing on what it leaves equals splitting the whole |
| SseSplitter.Complete | src/mira-runner.ts:282-310 | however the text is chunked, the read loop's blocks are those of one batch split, and what it leaves is the batch's rest |
| SseSplitter.ChunksDoNotMatter | src/mira-runner.ts:282-310 | two ways of cutting the same text give the same blocks |

## Left out

- NoFinalAfterFence: the statement about sends excludes the resend branches, which do send; `FencedRunSendsExactly` is exact.
- OrderDoesNotMatter: only terminals of unowned, unretired turns may come in between; `OthersDoNotMatter` allows everything that happens to others, and then equates callbacks up to their order.
- OthersDoNotMatter: does not cover so many events in between that the waiting terminal may be the oldest entry its bounded buffer forgets.
- KillAndVerify: does not model the wait between attempts; a kill that throws is swallowed by the source and so is not a separate case.
- FirstPromptAtMostOnce: takes `passesInitialPromptViaArgs` to be false, as for the codex-family adapters.
- LookupSettles: a keep-pending lookup may go on waiting; `KeepPendingEndsExactly` says when it ends.
- Time: `startedAtMs`, `completedAtMs` and marker timestamps; the idle timer and the keep-pending window are steps and parameters.
- Text: trimming, the terminal display, per-item text of streamed messages (kept as one running text), and the base64 form of chunks.
- Activity, diagnostic and lifecycle markers other than state markers and the accepted steers; token usage of finals.
- History is scanned page by page within a time budget; here one step delivers everything a scan saw.
- An empty native, reply or client id is read as absent, as is an empty native error message; an id that is no string is absent too.
- `ActiveTurn` keeps its fields in the same groups as the state machine's turn, as records that its methods replace; the source has them flat.
- Thread start and resume, authentication, capability detection and the missing-thread error patterns; a rejected RPC arrives already classified.
- A worker that is replaced while a record is being applied, and its durable commit log: the high-water mark is one number that survives reconnects.
- Signatures, challenges and endpoint rotation of the control handshake; ids of a final transaction are taken to be well-formed.
- JSON-RPC requests from the app-server to the engine (approvals, user input) and the interrupt they may trigger.
- The engine's owner key: an attempt is one value, so distinct turn ids and attempts never collide.
- Spawning, sockets, process-tree and rollout probes, tmux and dialogs.
- A dsh turn's timeout, tool display and preamble; more than one dsh turn at a time does not occur.
- What a Mira block means: whether a block ends the stream is a parameter, which covers the finish event and the error event.
- Error texts of the profile resolver; problems are listed by kind and position.
- The rest of `bot-registry.ts`, the `mir-*` runners, configuration, locale, prompts, scripts and the documentation site: glue with shallow properties.
