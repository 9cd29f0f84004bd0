/**
 How the hybrid RPC engine binds native turn ids to delivery attempts: requests
 and their timeouts, terminals that arrive before or after the response that
 names their owner, bounded buffers, and the engine's death.
 */
module RpcEngine {
  import opened Options

  type Id = nat
  type Owner = nat

  const LIMIT := 1_024

  datatype Status = Finished | Failed | Aborted | EngineDead | Stopped

  /** What app-server says of a turn that ended: the last two are the engine's own. */
  type Reported = status: Status | !status.EngineDead? && !status.Stopped? witness Finished

  datatype Callback = Callback(native: Id, owner: Owner, status: Status)

  // ---------------------------------------------------------------------------
  // Insertion-ordered maps
  // ---------------------------------------------------------------------------

  datatype Entry<V> = Entry(key: Id, value: V)

  function Get<V>(table: seq<Entry<V>>, key: Id): (r: Option<V>)
    ensures r.None? <==> forall k :: 0 <= k < |table| ==> table[k].key != key
  {
    if table == [] then None
    else if table[|table| - 1].key == key then Some(table[|table| - 1].value)
    else Get(table[..|table| - 1], key)
  }

  function Delete<V>(table: seq<Entry<V>>, key: Id): (r: seq<Entry<V>>)
    ensures |r| <= |table|
    ensures Get(table, key).None? ==> r == table
  {
    if table == [] then []
    else
      var n := |table| - 1;
      assert forall k :: 0 <= k < n ==> table[..n][k] == table[k];
      Delete(table[..n], key) + (if table[n].key == key then [] else [table[n]])
  }

  function Keys<V>(table: seq<Entry<V>>): (r: seq<Id>)
    ensures |r| == |table|
  {
    seq(|table|, k requires 0 <= k < |table| => table[k].key)
  }

  /** A bounded insertion-ordered collection forgets its oldest entry. */
  function Capped<T>(items: seq<T>): seq<T> {
    if |items| > LIMIT then items[1..] else items
  }

  // ---------------------------------------------------------------------------
  // The engine
  // ---------------------------------------------------------------------------

  /** `pending` maps a request to the attempt it starts a turn for, if any;
      `bound` is the history of native ids that responses named. */
  datatype Engine = Engine(
    nextId: nat,
    pending: map<nat, Option<Owner>>,
    owners: seq<Entry<Owner>>,
    nativeOf: map<Owner, Id>,
    terminals: seq<Id>,
    deferred: seq<Entry<Status>>,
    closed: bool,
    dead: bool,
    callbacks: seq<Callback>,
    deaths: nat,
    bound: seq<Id>)

  datatype Step =
    | StartTurn(owner: Owner, sends: bool)
    | OtherRequest(sends: bool)
    | Response(id: nat, named: Option<Id>)
    | ErrorResponse(id: nat)
    | TimedOut(id: nat, fatal: bool)
    | Terminal(native: Id, status: Reported)
    | Take(owner: Owner)
    | TransportLost
    | Stop

  function Init(): Engine {
    Engine(1, map[], [], map[], [], [], false, false, [], 0, [])
  }

  predicate StartPending(e: Engine) {
    exists id :: id in e.pending && e.pending[id].Some?
  }

  /** The frame is on the socket exactly when `sends`. */
  function Request(e: Engine, owner: Option<Owner>, sends: bool): Engine {
    if owner.Some? && StartPending(e) then e
    else e.(nextId := e.nextId + 1, pending := if sends then e.pending[e.nextId := owner] else e.pending - {e.nextId})
  }

  function EmitTerminal(e: Engine, native: Id, status: Status): Engine {
    if native in e.terminals then e
    else
      var owner := Get(e.owners, native);
      if owner.None? then
        e.(deferred := Capped(if Get(e.deferred, native).Some? then e.deferred else e.deferred + [Entry(native, status)]))
      else
        e.(terminals := Capped(e.terminals + [native]), owners := Delete(e.owners, native),
           callbacks := e.callbacks + [Callback(native, owner.value, status)])
  }

  function EmitAll(e: Engine, natives: seq<Id>, status: Status): Engine {
    if natives == [] then e
    else EmitTerminal(EmitAll(e, natives[..|natives| - 1], status), natives[|natives| - 1], status)
  }

  predicate Rebinds(e: Engine, native: Id, owner: Owner) {
    || (Get(e.owners, native).Some? && Get(e.owners, native) != Some(owner))
    || (owner in e.nativeOf && e.nativeOf[owner] != native)
  }

  function Bind(e: Engine, native: Id, owner: Owner): Engine
    requires !Rebinds(e, native, owner)
  {
    var owned := if native in e.terminals || Get(e.owners, native).Some? then e.owners else e.owners + [Entry(native, owner)];
    var e1 := e.(owners := owned, nativeOf := e.nativeOf[owner := native], bound := e.bound + [native]);
    var early := Get(e.deferred, native);
    if early.None? then e1 else EmitTerminal(e1.(deferred := Delete(e1.deferred, native)), native, early.value)
  }

  function FailAll(e: Engine): Engine {
    var e1 := e.(pending := map[]);
    if e.closed || e.dead then e1
    else
      var e2 := EmitAll(e1.(dead := true), Keys(e.owners), EngineDead);
      e2.(deaths := e2.deaths + 1)
  }

  function OnResponse(e: Engine, id: nat, native: Option<Id>): Engine {
    if id !in e.pending then e
    else
      var owner := e.pending[id];
      var e1 := e.(pending := e.pending - {id});
      if owner.None? then e1
      else if native.None? || Rebinds(e1, native.value, owner.value) then FailAll(e1)
      else Bind(e1, native.value, owner.value)
  }

  function OnStop(e: Engine): Engine {
    if e.closed then e
    else FailAll(EmitAll(e.(closed := true), Keys(e.owners), Stopped).(deferred := []))
  }

  function Next(e: Engine, step: Step): Engine {
    match step
    case StartTurn(owner, sends) => Request(e, Some(owner), sends)
    case OtherRequest(sends) => Request(e, None, sends)
    case Response(id, native) => OnResponse(e, id, native)
    case ErrorResponse(id) => e.(pending := e.pending - {id})
    case TimedOut(id, fatal) =>
      if id !in e.pending then e else if fatal then FailAll(e) else e.(pending := e.pending - {id})
    case Terminal(native, status) => EmitTerminal(e, native, status)
    case Take(owner) => e.(nativeOf := e.nativeOf - {owner})
    case TransportLost => if e.closed then e else FailAll(e)
    case Stop => OnStop(e)
  }

  function Run(e: Engine, steps: seq<Step>): Engine {
    if steps == [] then e else Next(Run(e, steps[..|steps| - 1]), steps[|steps| - 1])
  }

  // ---------------------------------------------------------------------------
  // What every step keeps
  // ---------------------------------------------------------------------------

  ghost predicate Distinct(items: seq<Id>) {
    forall j, k :: 0 <= j < k < |items| ==> items[j] != items[k]
  }

  function Natives(callbacks: seq<Callback>): (r: seq<Id>)
    ensures |r| == |callbacks|
  {
    seq(|callbacks|, k requires 0 <= k < |callbacks| => callbacks[k].native)
  }

  /** One start at a time, bounded buffers, fresh request numbers, and every
      native id a response ever named either live or already called back. */
  ghost predicate Inv(e: Engine) {
    && (forall id :: id in e.pending ==> id < e.nextId)
    && (forall i, j :: i in e.pending && j in e.pending && e.pending[i].Some? && e.pending[j].Some? ==> i == j)
    && |e.terminals| <= LIMIT && |e.deferred| <= LIMIT
    && Distinct(Keys(e.owners))
    && (forall native :: native in Keys(e.owners) ==> native in e.bound && native !in e.terminals)
    && (forall native :: native in e.bound <==> native in Keys(e.owners) || native in Natives(e.callbacks))
    && (forall native :: native in e.terminals ==> native in Natives(e.callbacks))
  }

  /** No native id is called back while it is live, nor twice. */
  ghost predicate Once(e: Engine) {
    && Distinct(Natives(e.callbacks))
    && (forall native :: native in Keys(e.owners) ==> native !in Natives(e.callbacks))
  }

  lemma DistinctSnoc(items: seq<Id>, item: Id)
    ensures Distinct(items + [item]) <==> Distinct(items) && item !in items
  {
    var more := items + [item];
    assert forall k :: 0 <= k < |items| ==> more[k] == items[k];
    assert more[|items|] == item;
  }

  lemma {:induction false} DeleteKeys<V>(table: seq<Entry<V>>, key: Id)
    ensures forall native :: native in Keys(Delete(table, key)) <==> native in Keys(table) && native != key
    ensures Distinct(Keys(table)) ==> Distinct(Keys(Delete(table, key)))
  {
    if table != [] {
      var n := |table| - 1;
      var rest := Delete(table[..n], key);
      DeleteKeys(table[..n], key);
      assert Keys(table) == Keys(table[..n]) + [table[n].key];
      assert Keys(Delete(table, key)) == Keys(rest) + (if table[n].key == key then [] else [table[n].key]);
      DistinctSnoc(Keys(table[..n]), table[n].key);
      DistinctSnoc(Keys(rest), table[n].key);
    }
  }

  lemma {:induction false} DeleteGet<V>(table: seq<Entry<V>>, key: Id, other: Id)
    requires other != key
    ensures Get(Delete(table, key), other) == Get(table, other)
  {
    if table != [] {
      var n := |table| - 1;
      var rest := Delete(table[..n], key);
      DeleteGet(table[..n], key, other);
      if table[n].key != key {
        assert (rest + [table[n]])[..|rest|] == rest;
      } else {
        assert Delete(table, key) == rest;
      }
    }
  }

  lemma NoKeys<V>(table: seq<Entry<V>>)
    ensures table != [] ==> table[0].key in Keys(table)
  {
    if table != [] {
      assert Keys(table)[0] == table[0].key;
    }
  }

  lemma GetIsKey<V>(table: seq<Entry<V>>, key: Id)
    ensures Get(table, key).Some? <==> key in Keys(table)
  {
    if key in Keys(table) {
      var k :| 0 <= k < |table| && Keys(table)[k] == key;
      assert table[k].key == key;
    }
    if Get(table, key).Some? {
      var k :| 0 <= k < |table| && table[k].key == key;
      assert Keys(table)[k] == key;
    }
  }

  /** What a terminal does, in terms of keys. */
  lemma EmitShape(e: Engine, native: Id, status: Status)
    requires Inv(e)
    ensures Inv(EmitTerminal(e, native, status))
    ensures var r := EmitTerminal(e, native, status);
      r == e.(terminals := r.terminals, owners := r.owners, callbacks := r.callbacks, deferred := r.deferred)
    ensures native in Keys(e.owners) ==>
      var r := EmitTerminal(e, native, status);
      && Natives(r.callbacks) == Natives(e.callbacks) + [native] && r.deferred == e.deferred
      && forall other :: other in Keys(r.owners) <==> other in Keys(e.owners) && other != native
    ensures native !in Keys(e.owners) ==>
      var r := EmitTerminal(e, native, status); r.callbacks == e.callbacks && r.owners == e.owners && r.terminals == e.terminals
  {
    GetIsKey(e.owners, native);
    DeleteKeys(e.owners, native);
    if native in Keys(e.owners) {
      var r := EmitTerminal(e, native, status);
      assert Natives(r.callbacks) == Natives(e.callbacks) + [native];
    }
  }

  lemma EmitOnce(e: Engine, native: Id, status: Status)
    requires Inv(e) && Once(e)
    ensures Once(EmitTerminal(e, native, status))
  {
    EmitShape(e, native, status);
  }

  lemma {:induction false} EmitAllShape(e: Engine, natives: seq<Id>, status: Status)
    requires Inv(e)
    ensures var r := EmitAll(e, natives, status);
      && Inv(r) && (Once(e) ==> Once(r))
      && r == e.(terminals := r.terminals, owners := r.owners, callbacks := r.callbacks, deferred := r.deferred)
      && forall native :: native in Keys(r.owners) <==> native in Keys(e.owners) && native !in natives
  {
    if natives != [] {
      var n := |natives| - 1;
      EmitAllShape(e, natives[..n], status);
      var before := EmitAll(e, natives[..n], status);
      EmitShape(before, natives[n], status);
      if Once(e) {
        EmitOnce(before, natives[n], status);
      }
      assert natives == natives[..n] + [natives[n]];
    }
  }

  lemma BindKeeps(e: Engine, native: Id, owner: Owner)
    requires Inv(e) && !Rebinds(e, native, owner)
    ensures Inv(Bind(e, native, owner))
    ensures Once(e) ==> (Once(Bind(e, native, owner)) <==> !Forgotten(e, native))
  {
    GetIsKey(e.owners, native);
    var owned := if native in e.terminals || Get(e.owners, native).Some? then e.owners else e.owners + [Entry(native, owner)];
    assert owned != e.owners ==> Keys(owned) == Keys(e.owners) + [native];
    var e1 := e.(owners := owned, nativeOf := e.nativeOf[owner := native], bound := e.bound + [native]);
    assert Inv(e1);
    if Forgotten(e, native) && Once(e) {
      assert native in Keys(owned);
    }
    if Get(e.deferred, native).Some? {
      var e2 := e1.(deferred := Delete(e1.deferred, native));
      EmitShape(e2, native, Get(e.deferred, native).value);
      if Once(e1) {
        EmitOnce(e2, native, Get(e.deferred, native).value);
      } else if Forgotten(e, native) && Once(e) {
        DistinctSnoc(Natives(e.callbacks), native);
      }
    }
  }

  lemma FailAllKeeps(e: Engine)
    requires Inv(e)
    ensures Inv(FailAll(e)) && (Once(e) ==> Once(FailAll(e)))
    ensures FailAll(e).bound == e.bound && FailAll(e).nextId == e.nextId && FailAll(e).pending == map[]
    ensures !e.closed && !e.dead ==> FailAll(e).owners == []
  {
    if !e.closed && !e.dead {
      EmitAllShape(e.(pending := map[], dead := true), Keys(e.owners), EngineDead);
      NoKeys(FailAll(e).owners);
    }
  }

  lemma StopKeeps(e: Engine)
    requires Inv(e)
    ensures Inv(OnStop(e)) && (Once(e) ==> Once(OnStop(e)))
    ensures OnStop(e).bound == e.bound && OnStop(e).nextId == e.nextId
    ensures !e.closed ==> OnStop(e).owners == [] && OnStop(e).pending == map[] && OnStop(e).deferred == []
  {
    if !e.closed {
      EmitAllShape(e.(closed := true), Keys(e.owners), Stopped);
      var r := EmitAll(e.(closed := true), Keys(e.owners), Stopped);
      FailAllKeeps(r.(deferred := []));
      NoKeys(r.owners);
    }
  }

  /** The id was called back, and 1024 later turns have pushed it out of the
      retired set. */
  predicate Forgotten(e: Engine, native: Id) {
    native in Natives(e.callbacks) && native !in e.terminals
  }

  /** A response names a forgotten id, and the engine binds it. */
  predicate RecallsForgotten(e: Engine, step: Step) {
    && step.Response? && step.id in e.pending && e.pending[step.id].Some? && step.named.Some?
    && Forgotten(e, step.named.value) && !Rebinds(e, step.named.value, e.pending[step.id].value)
  }

  lemma {:induction false} NextKeeps(e: Engine, step: Step)
    requires Inv(e)
    ensures Inv(Next(e, step))
    ensures Once(e) ==> (Once(Next(e, step)) <==> !RecallsForgotten(e, step))
  {
    match step
    case Response(id, named) => ResponseKeeps(e, id, named);
    case TimedOut(id, fatal) => FailAllKeeps(e);
    case Terminal(native, status) =>
      EmitShape(e, native, status);
      if Once(e) {
        EmitOnce(e, native, status);
      }
    case TransportLost => FailAllKeeps(e);
    case Stop => StopKeeps(e);
    case _ =>
  }

  lemma ResponseKeeps(e: Engine, id: nat, named: Option<Id>)
    requires Inv(e)
    ensures Inv(OnResponse(e, id, named))
    ensures Once(e) ==> (Once(OnResponse(e, id, named)) <==> !RecallsForgotten(e, Response(id, named)))
  {
    if id in e.pending {
      var e1 := e.(pending := e.pending - {id});
      FailAllKeeps(e1);
      if e.pending[id].Some? && named.Some? && !Rebinds(e1, named.value, e.pending[id].value) {
        BindKeeps(e1, named.value, e.pending[id].value);
      }
    }
  }

  lemma {:induction false} RunKeeps(steps: seq<Step>)
    ensures Inv(Run(Init(), steps))
  {
    if steps != [] {
      RunKeeps(steps[..|steps| - 1]);
      NextKeeps(Run(Init(), steps[..|steps| - 1]), steps[|steps| - 1]);
    }
  }

  // ---------------------------------------------------------------------------
  // What the engine promises
  // ---------------------------------------------------------------------------

  /** In every run at most one pending request is a `turn/start`, both buffers
      hold at most 1024 entries, and no id is both live and retired. */
  lemma OneStartAndBoundedBuffers(steps: seq<Step>)
    ensures var e := Run(Init(), steps);
      && |e.terminals| <= 1_024 && |e.deferred| <= 1_024
      && (forall i, j :: i in e.pending && j in e.pending && e.pending[i].Some? && e.pending[j].Some? ==> i == j)
      && (forall native :: native in Keys(e.owners) ==> native !in e.terminals)
  {
    RunKeeps(steps);
  }

  ghost predicate NeverRecalls(steps: seq<Step>) {
    forall k :: 0 <= k < |steps| ==> !RecallsForgotten(Run(Init(), steps[..k]), steps[k])
  }

  /** No run calls back twice for one native id, unless a response names an id
      that 1024 later turns have pushed out of the retired set. */
  lemma {:induction false} NoSecondCallback(steps: seq<Step>)
    requires NeverRecalls(steps)
    ensures Once(Run(Init(), steps))
  {
    if steps != [] {
      var n := |steps| - 1;
      assert forall k :: 0 <= k < n ==> steps[..n][..k] == steps[..k];
      NoSecondCallback(steps[..n]);
      RunKeeps(steps[..n]);
      NextKeeps(Run(Init(), steps[..n]), steps[n]);
    }
  }

  /** In particular when every response names a native id of its own. */
  lemma {:induction false} DistinctResponsesSuffice(steps: seq<Step>)
    requires forall k :: 0 <= k < |steps| && steps[k].Response? && steps[k].named.Some?
               ==> steps[k].named.value !in Run(Init(), steps[..k]).bound
    ensures NeverRecalls(steps)
  {
    forall k | 0 <= k < |steps| ensures !RecallsForgotten(Run(Init(), steps[..k]), steps[k]) {
      RunKeeps(steps[..k]);
    }
  }

  /** Stopping accounts for every turn: each native id a response ever named has
      been called back exactly once, and no other id ever was. */
  lemma {:induction false} StopCallsBackEveryTurn(steps: seq<Step>)
    requires NeverRecalls(steps) && !Run(Init(), steps).closed
    ensures var r := Next(Run(Init(), steps), Stop);
      && Distinct(Natives(r.callbacks)) && r.owners == [] && r.pending == map[] && r.deferred == []
      && forall native :: native in Natives(r.callbacks) <==> native in r.bound
  {
    RunKeeps(steps);
    NoSecondCallback(steps);
    StopAccounts(Run(Init(), steps));
  }

  lemma StopAccounts(e: Engine)
    requires Inv(e) && Once(e) && !e.closed
    ensures var r := Next(e, Stop);
      && Distinct(Natives(r.callbacks)) && r.owners == [] && r.pending == map[] && r.deferred == []
      && forall native :: native in Natives(r.callbacks) <==> native in r.bound
  {
    StopKeeps(e);
    AllCalledBack(OnStop(e));
  }

  lemma AllCalledBack(e: Engine)
    requires Inv(e) && e.owners == []
    ensures forall native :: native in Natives(e.callbacks) <==> native in e.bound
  {
    assert Keys(e.owners) == [];
  }

  /** A live native turn's owner never changes: it is only ever released. */
  lemma LiveOwnerIsStable(e: Engine, step: Step, native: Id)
    requires Inv(e) && Get(e.owners, native).Some?
    ensures Stable(e.owners, Next(e, step).owners, native)
  {
    match step
    case Response(id, named) => ResponseOwners(e, id, named, native);
    case TimedOut(id, fatal) => FailOwners(e, native);
    case Terminal(other, status) => EmitOwners(e, other, status, native);
    case TransportLost => FailOwners(e, native);
    case Stop => StopOwners(e, native);
    case _ =>
  }

  predicate Stable(before: seq<Entry<Owner>>, after: seq<Entry<Owner>>, native: Id) {
    Get(after, native) == Get(before, native) || Get(after, native).None?
  }

  lemma ResponseOwners(e: Engine, id: nat, named: Option<Id>, native: Id)
    requires Get(e.owners, native).Some?
    ensures Stable(e.owners, OnResponse(e, id, named).owners, native)
  {
    if id in e.pending {
      var e1 := e.(pending := e.pending - {id});
      FailOwners(e1, native);
      if e.pending[id].Some? && named.Some? && !Rebinds(e1, named.value, e.pending[id].value) {
        BindOwners(e1, named.value, e.pending[id].value, native);
      }
    }
  }

  lemma StopOwners(e: Engine, native: Id)
    ensures Stable(e.owners, OnStop(e).owners, native)
  {
    if !e.closed {
      EmitAllOwners(e.(closed := true), Keys(e.owners), Stopped, native);
      FailOwners(EmitAll(e.(closed := true), Keys(e.owners), Stopped).(deferred := []), native);
    }
  }

  lemma EmitOwners(e: Engine, other: Id, status: Status, native: Id)
    ensures Stable(e.owners, EmitTerminal(e, other, status).owners, native)
  {
    DeleteKeys(e.owners, native);
    GetIsKey(Delete(e.owners, native), native);
    if other != native {
      DeleteGet(e.owners, other, native);
    }
  }

  lemma {:induction false} EmitAllOwners(e: Engine, natives: seq<Id>, status: Status, native: Id)
    ensures Stable(e.owners, EmitAll(e, natives, status).owners, native)
  {
    if natives != [] {
      EmitAllOwners(e, natives[..|natives| - 1], status, native);
      EmitOwners(EmitAll(e, natives[..|natives| - 1], status), natives[|natives| - 1], status, native);
    }
  }

  lemma FailOwners(e: Engine, native: Id)
    ensures Stable(e.owners, FailAll(e).owners, native)
  {
    EmitAllOwners(e.(pending := map[], dead := true), Keys(e.owners), EngineDead, native);
  }

  lemma BindOwners(e: Engine, named: Id, owner: Owner, native: Id)
    requires !Rebinds(e, named, owner) && Get(e.owners, native).Some?
    ensures Stable(e.owners, Bind(e, named, owner).owners, native)
  {
    var owned := if named in e.terminals || Get(e.owners, named).Some? then e.owners else e.owners + [Entry(named, owner)];
    if owned != e.owners {
      assert owned[..|e.owners|] == e.owners;
    }
    assert Get(owned, native) == Get(e.owners, native);
    var e1 := e.(owners := owned, nativeOf := e.nativeOf[owner := named], bound := e.bound + [named]);
    var early := Get(e.deferred, named);
    if early.Some? {
      EmitOwners(e1.(deferred := Delete(e1.deferred, named)), named, early.value, native);
    }
  }

  // ---- a timed-out start ----------------------------------------------------

  /** The request is over: answered, failed or timed out. */
  predicate Over(e: Engine, id: nat) {
    id < e.nextId && id !in e.pending
  }

  lemma {:induction false} StaysOver(e: Engine, id: nat, steps: seq<Step>)
    requires Inv(e) && Over(e, id)
    ensures Inv(Run(e, steps)) && Over(Run(e, steps), id)
  {
    if steps != [] {
      var before := Run(e, steps[..|steps| - 1]);
      StaysOver(e, id, steps[..|steps| - 1]);
      NextKeeps(before, steps[|steps| - 1]);
      OverForGood(before, steps[|steps| - 1], id);
    }
  }

  lemma OverForGood(e: Engine, step: Step, id: nat)
    requires Inv(e) && Over(e, id)
    ensures Over(Next(e, step), id)
  {
    match step
    case Response(other, native) =>
      if other in e.pending {
        var e1 := e.(pending := e.pending - {other});
        FailAllKeeps(e1);
        if e.pending[other].Some? && native.Some? && !Rebinds(e1, native.value, e.pending[other].value) {
          BindKeepsRequests(e1, native.value, e.pending[other].value);
        }
      }
    case TimedOut(other, fatal) => FailAllKeeps(e);
    case Terminal(native, status) => EmitShape(e, native, status);
    case TransportLost => FailAllKeeps(e);
    case Stop => StopKeeps(e);
    case _ =>
  }

  lemma BindKeepsRequests(e: Engine, native: Id, owner: Owner)
    requires Inv(e) && !Rebinds(e, native, owner)
    ensures Bind(e, native, owner).pending == e.pending && Bind(e, native, owner).nextId == e.nextId
  {
  }

  /** A request is over once it is answered, rejected or timed out, and an error
      answer or a timeout that is not fatal touches nothing else: the next start may
      be made. */
  lemma AnsweredIsOver(e: Engine, step: Step)
    requires Inv(e) && (step.Response? || step.ErrorResponse? || step.TimedOut?)
    ensures step.id !in Next(e, step).pending
    ensures step.ErrorResponse? || (step.TimedOut? && !step.fatal && step.id in e.pending) ==>
      && Next(e, step) == e.(pending := Next(e, step).pending)
      && forall other :: other in e.pending && other != step.id ==>
           other in Next(e, step).pending && Next(e, step).pending[other] == e.pending[other]
  {
    FailAllKeeps(e);
    if step.Response? && step.id in e.pending {
      var e1 := e.(pending := e.pending - {step.id});
      FailAllKeeps(e1);
      if e.pending[step.id].Some? && step.named.Some? && !Rebinds(e1, step.named.value, e.pending[step.id].value) {
        BindKeepsRequests(e1, step.named.value, e.pending[step.id].value);
      }
    }
  }

  /** A `turn/start` whose ack timed out is never bound by its late response,
      however much later it comes: the response changes nothing at all. */
  lemma {:induction false} LateResponseIsIgnored(before: seq<Step>, id: nat, fatal: bool, between: seq<Step>, native: Option<Id>)
    requires id in Run(Init(), before).pending
    ensures var e := Run(Next(Run(Init(), before), TimedOut(id, fatal)), between);
      Next(e, Response(id, native)) == e
  {
    RunKeeps(before);
    var e := Run(Init(), before);
    NextKeeps(e, TimedOut(id, fatal));
    FailAllKeeps(e);
    StaysOver(Next(e, TimedOut(id, fatal)), id, between);
  }

  /** A terminal no response has claimed is never attributed to anyone. */
  lemma UnownedTerminalIsSilent(e: Engine, native: Id, status: Reported)
    requires Inv(e) && native !in e.bound
    ensures Next(e, Terminal(native, status)).callbacks == e.callbacks
  {
    GetIsKey(e.owners, native);
  }

  // ---- acknowledgement and terminal in either order -------------------------

  /** Request `id` starts attempt `owner`; `native` is new to the engine. */
  predicate AwaitsNative(e: Engine, id: nat, owner: Owner, native: Id) {
    && id in e.pending && e.pending[id] == Some(owner)
    && native !in e.terminals && Get(e.owners, native).None? && Get(e.deferred, native).None?
    && (owner in e.nativeOf ==> e.nativeOf[owner] == native)
  }

  /** Terminals of other turns that nobody here owns or has retired. */
  ghost predicate Strangers(e: Engine, steps: seq<Step>, native: Id) {
    forall k :: 0 <= k < |steps| ==>
      && steps[k].Terminal? && steps[k].native != native
      && steps[k].native !in e.terminals && Get(e.owners, steps[k].native).None?
  }

  /** The engine after the response and then the terminal of its turn. */
  function Answered(e: Engine, id: nat, owner: Owner, native: Id, status: Reported): Engine {
    e.(pending := e.pending - {id}, nativeOf := e.nativeOf[owner := native], bound := e.bound + [native],
       terminals := Capped(e.terminals + [native]), callbacks := e.callbacks + [Callback(native, owner, status)])
  }

  lemma AppendedGet<V>(table: seq<Entry<V>>, entry: Entry<V>, key: Id)
    ensures Get(table + [entry], key) == if entry.key == key then Some(entry.value) else Get(table, key)
    ensures Delete(table + [entry], key) == Delete(table, key) + (if entry.key == key then [] else [entry])
  {
    assert (table + [entry])[..|table|] == table;
  }

  lemma AckThenTerminal(e: Engine, id: nat, owner: Owner, native: Id, status: Reported)
    requires AwaitsNative(e, id, owner, native)
    ensures Next(Next(e, Response(id, Some(native))), Terminal(native, status)) == Answered(e, id, owner, native, status)
  {
    AppendedGet(e.owners, Entry(native, owner), native);
  }

  /** The terminal is waiting in the buffer when the response arrives. */
  lemma DeferredAck(e: Engine, id: nat, owner: Owner, native: Id, status: Reported)
    requires id in e.pending && e.pending[id] == Some(owner) && native !in e.terminals && Get(e.owners, native).None?
    requires owner in e.nativeOf ==> e.nativeOf[owner] == native
    requires Get(e.deferred, native) == Some(status)
    ensures Next(e, Response(id, Some(native)))
         == Answered(e.(deferred := Delete(e.deferred, native)), id, owner, native, status)
  {
    AppendedGet(e.owners, Entry(native, owner), native);
  }

  /** One stranger's terminal is buffered the same way whether the turn's own
      terminal is waiting in front of it or already delivered. */
  lemma StrangerCommutes(e: Engine, native: Id, status: Reported, stranger: Step)
    requires stranger.Terminal? && stranger.native != native && Get(e.owners, stranger.native).None?
    requires stranger.native !in e.terminals && |e.deferred| < LIMIT
    requires Get(e.deferred, native) == Some(status)
    ensures var r := Next(e, stranger);
      && r == e.(deferred := r.deferred) && |r.deferred| <= |e.deferred| + 1
      && Get(r.deferred, native) == Some(status)
      && Delete(r.deferred, native) == Next(e.(deferred := Delete(e.deferred, native)), stranger).deferred
  {
    DeleteGet(e.deferred, native, stranger.native);
    AppendedGet(e.deferred, Entry(stranger.native, stranger.status), native);
  }

  lemma {:induction false} StrangersCommute(e: Engine, native: Id, status: Reported, steps: seq<Step>)
    requires Strangers(e, steps, native) && |e.deferred| + |steps| <= LIMIT && Get(e.deferred, native) == Some(status)
    ensures var r := Run(e, steps);
      && r == e.(deferred := r.deferred) && |r.deferred| <= |e.deferred| + |steps|
      && Get(r.deferred, native) == Some(status)
      && Run(e.(deferred := Delete(e.deferred, native)), steps) == e.(deferred := Delete(r.deferred, native))
  {
    if steps != [] {
      var n := |steps| - 1;
      StrangersCommute(e, native, status, steps[..n]);
      StrangerCommutes(Run(e, steps[..n]), native, status, steps[n]);
    }
  }

  /** Strangers do not see whether the turn was answered before them. */
  lemma {:induction false} StrangersIndifferent(e: Engine, steps: seq<Step>, id: nat, owner: Owner, native: Id, status: Reported)
    requires Strangers(e, steps, native)
    ensures Run(e, steps) == e.(deferred := Run(e, steps).deferred)
    ensures Run(Answered(e, id, owner, native, status), steps) == Answered(Run(e, steps), id, owner, native, status)
  {
    if steps != [] {
      StrangersIndifferent(e, steps[..|steps| - 1], id, owner, native, status);
    }
  }

  /** Response then terminal, or terminal, strangers, then response: the engine
      ends in the same state, with one callback carrying the terminal's status,
      provided the buffer of unowned terminals does not overflow in between. */
  lemma {:induction false} OrderDoesNotMatter(e: Engine, id: nat, owner: Owner, native: Id, status: Reported, between: seq<Step>)
    requires AwaitsNative(e, id, owner, native) && Strangers(e, between, native)
    requires |e.deferred| + 1 + |between| <= LIMIT
    ensures var late := Next(Run(Next(e, Terminal(native, status)), between), Response(id, Some(native)));
      var early := Run(Next(Next(e, Response(id, Some(native))), Terminal(native, status)), between);
      && late == early
      && late.callbacks == e.callbacks + [Callback(native, owner, status)]
  {
    AckThenTerminal(e, id, owner, native, status);
    StrangersIndifferent(e, between, id, owner, native, status);
    TerminalWaits(e, id, owner, native, status, between);
  }

  lemma TerminalWaits(e: Engine, id: nat, owner: Owner, native: Id, status: Reported, between: seq<Step>)
    requires AwaitsNative(e, id, owner, native) && Strangers(e, between, native)
    requires |e.deferred| + 1 + |between| <= LIMIT
    ensures Next(Run(Next(e, Terminal(native, status)), between), Response(id, Some(native)))
         == Answered(Run(e, between), id, owner, native, status)
  {
    TerminalDeferred(e, native, status);
    var waiting := Next(e, Terminal(native, status));
    StrangersCommute(waiting, native, status, between);
    DeferredAck(Run(waiting, between), id, owner, native, status);
  }

  lemma TerminalDeferred(e: Engine, native: Id, status: Reported)
    requires native !in e.terminals && Get(e.owners, native).None? && Get(e.deferred, native).None? && |e.deferred| < LIMIT
    ensures var waiting := Next(e, Terminal(native, status));
      && waiting == e.(deferred := waiting.deferred) && |waiting.deferred| == |e.deferred| + 1
      && Get(waiting.deferred, native) == Some(status)
      && waiting.(deferred := Delete(waiting.deferred, native)) == e
  {
    AppendedGet(e.deferred, Entry(native, status), native);
  }

  /** An event that concerns neither this request, nor its attempt, nor its native
      turn, and does not end the engine. Terminals of turns owned by others, other
      requests, their responses, errors and timeouts, and other attempts' takes
      are all of this kind. */
  predicate Bystander(step: Step, id: nat, owner: Owner, native: Id) {
    match step
    case OtherRequest(_) => true
    case Response(other, _) => other != id
    case ErrorResponse(other) => other != id
    case TimedOut(other, fatal) => other != id && !fatal
    case Terminal(other, _) => other != native
    case Take(other) => other != owner
    case _ => false
  }

  /** `late` still awaits the response with the terminal buffered; `early` has had
      both, before everything else that happened to the two. What they remember of
      retired and unowned turns is related only if `whole`. */
  ghost predicate Overtaken(late: Engine, early: Engine, id: nat, owner: Owner, native: Id, status: Reported, whole: bool) {
    && Inv(late) && Inv(early)
    && id in late.pending && late.pending[id] == Some(owner) && early.pending == late.pending - {id}
    && Get(late.owners, native).None? && Get(late.deferred, native) == Some(status) && native !in late.terminals
    && (owner in late.nativeOf ==> late.nativeOf[owner] == native)
    && early == late.(
         pending := early.pending, nativeOf := late.nativeOf[owner := native], bound := late.bound + [native],
         deferred := early.deferred, terminals := early.terminals, callbacks := early.callbacks)
    && multiset(early.callbacks) == multiset(late.callbacks) + multiset{Callback(native, owner, status)}
    && (whole ==> SameMemory(late, early, native))
  }

  ghost predicate SameMemory(late: Engine, early: Engine, native: Id) {
    && early.deferred == Delete(late.deferred, native)
    && (forall other :: other in early.terminals <==> other in late.terminals || other == native)
    && |early.terminals| == |late.terminals| + 1
  }

  /** So many more events fit into the buffer of unowned terminals, and, if `whole`,
      into the retired set. */
  predicate Roomy(late: Engine, early: Engine, more: nat, whole: bool) {
    |late.deferred| + more <= LIMIT && (whole ==> |early.terminals| + more <= LIMIT)
  }

  lemma OvertakenTerminal(late: Engine, early: Engine, other: Id, ended: Reported,
        id: nat, owner: Owner, native: Id, status: Reported, more: nat, whole: bool)
    requires Overtaken(late, early, id, owner, native, status, whole) && other != native && Roomy(late, early, more + 1, whole)
    ensures Overtaken(EmitTerminal(late, other, ended), EmitTerminal(early, other, ended), id, owner, native, status, whole)
    ensures Roomy(EmitTerminal(late, other, ended), EmitTerminal(early, other, ended), more, whole)
  {
    EmitShape(late, other, ended);
    EmitShape(early, other, ended);
    GetIsKey(late.owners, other);
    if Get(late.owners, other).None? {
      OvertakenStranger(late, early, other, ended, id, owner, native, status, whole);
    } else {
      OvertakenOwned(late, early, other, ended, id, owner, native, status, whole);
    }
  }

  lemma OvertakenStranger(late: Engine, early: Engine, other: Id, ended: Reported,
        id: nat, owner: Owner, native: Id, status: Reported, whole: bool)
    requires Overtaken(late, early, id, owner, native, status, whole) && other != native
    requires Inv(EmitTerminal(late, other, ended)) && Inv(EmitTerminal(early, other, ended))
    requires Get(late.owners, other).None? && |late.deferred| < LIMIT
    ensures Overtaken(EmitTerminal(late, other, ended), EmitTerminal(early, other, ended), id, owner, native, status, whole)
  {
    UnownedOnlyDefers(late, other, ended);
    UnownedOnlyDefers(early, other, ended);
    AppendedGet(late.deferred, Entry(other, ended), native);
    if whole {
      StrangerRemembered(late, early, other, ended, native, status);
    }
  }

  lemma UnownedOnlyDefers(e: Engine, other: Id, ended: Reported)
    requires Get(e.owners, other).None?
    ensures var r := EmitTerminal(e, other, ended);
      && r == e.(deferred := r.deferred)
      && (|e.deferred| < LIMIT ==> r.deferred == e.deferred || r.deferred == e.deferred + [Entry(other, ended)])
  {
  }

  lemma StrangerRemembered(late: Engine, early: Engine, other: Id, ended: Reported, native: Id, status: Reported)
    requires SameMemory(late, early, native) && other != native && |late.deferred| < LIMIT
    requires Get(late.owners, other).None? && early.owners == late.owners && Get(late.deferred, native) == Some(status)
    ensures SameMemory(EmitTerminal(late, other, ended), EmitTerminal(early, other, ended), native)
  {
    DeleteGet(late.deferred, native, other);
    UnownedDefers(late, other, ended);
    UnownedDefers(early, other, ended);
    AppendedGet(late.deferred, Entry(other, ended), native);
  }

  lemma UnownedDefers(e: Engine, other: Id, ended: Reported)
    requires Get(e.owners, other).None? && |e.deferred| < LIMIT
    ensures EmitTerminal(e, other, ended) == e.(deferred :=
      if other in e.terminals || Get(e.deferred, other).Some? then e.deferred else e.deferred + [Entry(other, ended)])
  {
  }

  /** An owned turn is retired in neither, so both call it back. */
  lemma OvertakenOwned(late: Engine, early: Engine, other: Id, ended: Reported,
        id: nat, owner: Owner, native: Id, status: Reported, whole: bool)
    requires Overtaken(late, early, id, owner, native, status, whole) && other != native
    requires Inv(EmitTerminal(late, other, ended)) && Inv(EmitTerminal(early, other, ended))
    requires other in Keys(late.owners) && (whole ==> |early.terminals| < LIMIT)
    ensures Overtaken(EmitTerminal(late, other, ended), EmitTerminal(early, other, ended), id, owner, native, status, whole)
  {
    GetIsKey(late.owners, other);
    DeleteGet(late.owners, other, native);
    if |late.terminals| == LIMIT {
      assert forall retired :: retired in Capped(late.terminals + [other]) ==> retired in late.terminals + [other];
    }
  }

  /** Other requests come and go in both alike. */
  lemma OvertakenPending(late: Engine, early: Engine, nextId: nat, pending: map<nat, Option<Owner>>,
        id: nat, owner: Owner, native: Id, status: Reported, whole: bool)
    requires Overtaken(late, early, id, owner, native, status, whole) && id in pending && pending[id] == Some(owner)
    requires Inv(late.(nextId := nextId, pending := pending)) && Inv(early.(nextId := nextId, pending := pending - {id}))
    ensures Overtaken(late.(nextId := nextId, pending := pending),
                     early.(nextId := nextId, pending := pending - {id}), id, owner, native, status, whole)
  {
  }

  lemma OvertakenRequest(late: Engine, early: Engine, sends: bool, id: nat, owner: Owner, native: Id, status: Reported, whole: bool)
    requires Overtaken(late, early, id, owner, native, status, whole)
    ensures Overtaken(Request(late, None, sends), Request(early, None, sends), id, owner, native, status, whole)
  {
    NextKeeps(late, OtherRequest(sends));
    NextKeeps(early, OtherRequest(sends));
    var l, r := Request(late, None, sends), Request(early, None, sends);
    assert r.pending == l.pending - {id} by {
      assert late.nextId != id && early.pending == late.pending - {id};
    }
    OvertakenPending(late, early, l.nextId, l.pending, id, owner, native, status, whole);
  }

  lemma OvertakenOther(late: Engine, early: Engine, step: Step, id: nat, owner: Owner, native: Id, status: Reported, whole: bool)
    requires Overtaken(late, early, id, owner, native, status, whole) && Bystander(step, id, owner, native)
    requires step.Response? || step.ErrorResponse? || step.TimedOut? || step.Take?
    ensures Overtaken(Next(late, step), Next(early, step), id, owner, native, status, whole)
    ensures Next(late, step).terminals == late.terminals && Next(late, step).deferred == late.deferred
    ensures Next(early, step).terminals == early.terminals
  {
    match step
    case Response(other, _) => OvertakenAnswer(late, early, other, id, owner, native, status, whole);
    case ErrorResponse(other) => OvertakenAnswer(late, early, other, id, owner, native, status, whole);
    case TimedOut(other, _) => OvertakenAnswer(late, early, other, id, owner, native, status, whole);
    case Take(other) =>
      assert Next(early, step).nativeOf == Next(late, step).nativeOf[owner := native];
  }

  /** The pending start is the only one, so another request's answer binds nothing. */
  lemma OvertakenAnswer(late: Engine, early: Engine, other: nat, id: nat, owner: Owner, native: Id, status: Reported, whole: bool)
    requires Overtaken(late, early, id, owner, native, status, whole) && other != id
    ensures other in late.pending ==> late.pending[other].None?
    ensures Overtaken(late.(pending := late.pending - {other}), early.(pending := early.pending - {other}), id, owner, native, status, whole)
    ensures other !in late.pending ==> late.pending - {other} == late.pending && early.pending - {other} == early.pending
  {
    var pending := late.pending - {other};
    assert early.pending - {other} == pending - {id};
    OvertakenPending(late, early, late.nextId, pending, id, owner, native, status, whole);
  }

  lemma OvertakenStep(late: Engine, early: Engine, step: Step, id: nat, owner: Owner, native: Id, status: Reported, more: nat, whole: bool)
    requires Overtaken(late, early, id, owner, native, status, whole) && Roomy(late, early, more + 1, whole)
    requires Bystander(step, id, owner, native)
    ensures Overtaken(Next(late, step), Next(early, step), id, owner, native, status, whole)
    ensures Roomy(Next(late, step), Next(early, step), more, whole)
  {
    match step
    case Terminal(other, ended) => OvertakenTerminal(late, early, other, ended, id, owner, native, status, more, whole);
    case OtherRequest(sends) => OvertakenRequest(late, early, sends, id, owner, native, status, whole);
    case _ => OvertakenOther(late, early, step, id, owner, native, status, whole);
  }

  lemma {:induction false} OvertakenRun(late: Engine, early: Engine, steps: seq<Step>,
        id: nat, owner: Owner, native: Id, status: Reported, more: nat, whole: bool)
    requires Overtaken(late, early, id, owner, native, status, whole) && Roomy(late, early, |steps| + more, whole)
    requires forall k :: 0 <= k < |steps| ==> Bystander(steps[k], id, owner, native)
    ensures Overtaken(Run(late, steps), Run(early, steps), id, owner, native, status, whole)
    ensures Roomy(Run(late, steps), Run(early, steps), more, whole)
  {
    if steps != [] {
      var n := |steps| - 1;
      OvertakenRun(late, early, steps[..n], id, owner, native, status, more + 1, whole);
      OvertakenStep(Run(late, steps[..n]), Run(early, steps[..n]), steps[n], id, owner, native, status, more, whole);
    }
  }

  lemma TerminalOvertaken(e: Engine, id: nat, owner: Owner, native: Id, status: Reported, more: nat, whole: bool)
    requires Inv(e) && AwaitsNative(e, id, owner, native)
    requires |e.deferred| + 1 + more <= LIMIT && (whole ==> |e.terminals| + 1 + more <= LIMIT)
    ensures Overtaken(Next(e, Terminal(native, status)), Answered(e, id, owner, native, status), id, owner, native, status, whole)
    ensures Roomy(Next(e, Terminal(native, status)), Answered(e, id, owner, native, status), more, whole)
  {
    TerminalDeferred(e, native, status);
    NextKeeps(e, Terminal(native, status));
    NextKeeps(e, Response(id, Some(native)));
    NextKeeps(Next(e, Response(id, Some(native))), Terminal(native, status));
    AckThenTerminal(e, id, owner, native, status);
  }

  /** Whatever happens to others in between, and to whichever turns: response then
      terminal, or terminal then response, leave the same owners, bindings and
      requests, and the same callbacks, this turn's once among them, up to their
      order, unless the waiting terminal is pushed out of its buffer. The two also
      remember the same retired and unowned turns, if the retired set does not
      overflow in between. */
  lemma {:induction false} OthersDoNotMatter(e: Engine, id: nat, owner: Owner, native: Id, status: Reported, between: seq<Step>)
    requires Inv(e) && AwaitsNative(e, id, owner, native)
    requires forall k :: 0 <= k < |between| ==> Bystander(between[k], id, owner, native)
    requires |e.deferred| + 1 + |between| <= LIMIT
    ensures var late := Next(Run(Next(e, Terminal(native, status)), between), Response(id, Some(native)));
      var early := Run(Next(Next(e, Response(id, Some(native))), Terminal(native, status)), between);
      && early == late.(terminals := early.terminals, callbacks := early.callbacks, deferred := early.deferred)
      && multiset(early.callbacks) == multiset(late.callbacks)
      && late.callbacks == Run(Next(e, Terminal(native, status)), between).callbacks + [Callback(native, owner, status)]
      && (|e.terminals| + 1 + |between| <= LIMIT ==>
            early.deferred == late.deferred && forall other :: other in early.terminals <==> other in late.terminals)
  {
    var whole := |e.terminals| + 1 + |between| <= LIMIT;
    AckThenTerminal(e, id, owner, native, status);
    TerminalOvertaken(e, id, owner, native, status, |between|, whole);
    var waiting := Next(e, Terminal(native, status));
    OvertakenRun(waiting, Answered(e, id, owner, native, status), between, id, owner, native, status, 0, whole);
    OvertakenAck(Run(waiting, between), Run(Answered(e, id, owner, native, status), between), id, owner, native, status, whole);
  }

  lemma OvertakenAck(late: Engine, early: Engine, id: nat, owner: Owner, native: Id, status: Reported, whole: bool)
    requires Overtaken(late, early, id, owner, native, status, whole) && Roomy(late, early, 0, whole)
    ensures var r := Next(late, Response(id, Some(native)));
      && early == r.(terminals := early.terminals, callbacks := early.callbacks, deferred := early.deferred)
      && multiset(early.callbacks) == multiset(r.callbacks)
      && r.callbacks == late.callbacks + [Callback(native, owner, status)]
      && (whole ==> early.deferred == r.deferred && forall other :: other in early.terminals <==> other in r.terminals)
  {
    DeferredAck(late, id, owner, native, status);
  }

  /** The first terminal decides: a second one, in any order relative to the
      response, leaves the callback as it was. */
  lemma {:induction false} FirstTerminalWins(e: Engine, id: nat, owner: Owner, native: Id, first: Reported, second: Reported)
    requires AwaitsNative(e, id, owner, native) && |e.deferred| < LIMIT
    ensures var answered := Answered(e, id, owner, native, first);
      && Next(answered, Terminal(native, second)) == answered
      && Next(Next(Next(e, Terminal(native, first)), Terminal(native, second)), Response(id, Some(native))) == answered
  {
    AppendedGet(e.deferred, Entry(native, first), native);
    var waiting := Next(e, Terminal(native, first));
    assert Next(waiting, Terminal(native, second)) == waiting;
    DeferredAck(waiting, id, owner, native, first);
    var terminals := e.terminals + [native];
    assert terminals[|e.terminals|] == native;
    if |terminals| > LIMIT {
      assert terminals[1..][|e.terminals| - 1] == native;
    }
  }

  // ---- a forgotten id -------------------------------------------------------

  lemma RunSnoc(e: Engine, steps: seq<Step>, step: Step)
    ensures Run(e, steps + [step]) == Next(Run(e, steps), step)
  {
    assert (steps + [step])[..|steps|] == steps;
  }

  /** Turn after turn, each started, answered, finished and taken. */
  function Cycles(count: nat): seq<Step> {
    if count == 0 then []
    else Cycles(count - 1) + [StartTurn(count - 1, true)] + [Response(count, Some(count - 1))]
         + [Terminal(count - 1, Finished)] + [Take(count - 1)]
  }

  function Range(from: nat, to: nat): seq<Id>
    requires from <= to
  {
    seq(to - from, k => from + k)
  }

  function Oldest(count: nat): (r: nat)
    ensures r <= count
  {
    if count > LIMIT then count - LIMIT else 0
  }

  /** The engine after that many turns remembers the last 1024 of them. */
  ghost predicate Cycled(e: Engine, count: nat) {
    && e.nextId == count + 1 && e.pending == map[] && e.owners == [] && e.nativeOf == map[] && e.deferred == []
    && e.terminals == Range(Oldest(count), count)
    && Natives(e.callbacks) == Range(0, count)
  }

  lemma OneCycle(e: Engine, count: nat)
    requires Cycled(e, count)
    ensures Cycled(Next(Next(Next(Next(e, StartTurn(count, true)), Response(count + 1, Some(count))), Terminal(count, Finished)),
                        Take(count)), count + 1)
  {
    var e1 := Next(e, StartTurn(count, true));
    assert e1.pending == map[count + 1 := Some(count)];
    AckThenTerminal(e1, count + 1, count, count, Finished);
    AnsweredCycle(e, count);
  }

  lemma CappedRange(count: nat)
    ensures Capped(Range(Oldest(count), count) + [count]) == Range(Oldest(count + 1), count + 1)
  {
    assert Range(Oldest(count), count) + [count] == Range(Oldest(count), count + 1);
    assert count >= LIMIT ==> Range(Oldest(count), count + 1)[1..] == Range(Oldest(count) + 1, count + 1);
  }

  lemma AnsweredCycle(e: Engine, count: nat)
    requires Cycled(e, count)
    ensures var e1 := e.(nextId := count + 2, pending := map[count + 1 := Some(count)]);
      Cycled(Next(Answered(e1, count + 1, count, count, Finished), Take(count)), count + 1)
  {
    var e1 := e.(nextId := count + 2, pending := map[count + 1 := Some(count)]);
    var answered := Answered(e1, count + 1, count, count, Finished);
    CappedRange(count);
    assert Natives(answered.callbacks) == Natives(e.callbacks) + [count];
    assert Range(0, count + 1) == Range(0, count) + [count];
    assert answered.pending == map[] && answered.nativeOf - {count} == map[];
  }

  lemma {:induction false} CyclesRun(count: nat)
    ensures Cycled(Run(Init(), Cycles(count)), count)
  {
    if count > 0 {
      var before := Cycles(count - 1);
      CyclesRun(count - 1);
      OneCycle(Run(Init(), before), count - 1);
      var s1 := before + [StartTurn(count - 1, true)];
      var s2 := s1 + [Response(count, Some(count - 1))];
      var s3 := s2 + [Terminal(count - 1, Finished)];
      RunSnoc(Init(), before, StartTurn(count - 1, true));
      RunSnoc(Init(), s1, Response(count, Some(count - 1)));
      RunSnoc(Init(), s2, Terminal(count - 1, Finished));
      RunSnoc(Init(), s3, Take(count - 1));
    }
  }

  /** After 1025 turns the first one is forgotten: a response that names it again
      is bound, and its next terminal is a second callback. */
  lemma {:induction false} ForgottenIdIsCalledBackTwice()
    ensures var e := Next(Run(Init(), Cycles(LIMIT + 1)), StartTurn(LIMIT + 1, true));
      && RecallsForgotten(e, Response(LIMIT + 2, Some(0)))
      && !Distinct(Natives(Next(Next(e, Response(LIMIT + 2, Some(0))), Terminal(0, Failed)).callbacks))
  {
    CyclesRun(LIMIT + 1);
    RecallAfter(Run(Init(), Cycles(LIMIT + 1)));
  }

  lemma RecallAfter(e: Engine)
    requires Cycled(e, LIMIT + 1)
    ensures var e1 := Next(e, StartTurn(LIMIT + 1, true));
      && RecallsForgotten(e1, Response(LIMIT + 2, Some(0)))
      && !Distinct(Natives(Next(Next(e1, Response(LIMIT + 2, Some(0))), Terminal(0, Failed)).callbacks))
  {
    var e1 := Next(e, StartTurn(LIMIT + 1, true));
    assert e1.terminals == Range(1, LIMIT + 1);
    assert Natives(e1.callbacks)[0] == 0;
    AckThenTerminal(e1, LIMIT + 2, LIMIT + 1, 0, Failed);
    DistinctSnoc(Natives(e1.callbacks), 0);
    assert Natives(Answered(e1, LIMIT + 2, LIMIT + 1, 0, Failed).callbacks) == Natives(e1.callbacks) + [0];
  }
}
