/**
 Why the RPC engine calls a turn back: each callback answers the attempt whose
 `turn/start` response named the native turn, with the status app-server reported
 for it, or because the engine died or was stopped while the turn was live.
 */
module RpcCallbacks {
  import opened Options
  import opened RpcEngine

  // ---------------------------------------------------------------------------
  // The callbacks of one step
  // ---------------------------------------------------------------------------

  /** One callback for each live turn, in the order the turns were bound. */
  function Ended(owners: seq<Entry<Owner>>, status: Status): (r: seq<Callback>)
    ensures |r| == |owners|
  {
    seq(|owners|, k requires 0 <= k < |owners| => Callback(owners[k].key, owners[k].value, status))
  }

  /** The response names no native turn, one that another attempt owns, or one that
      is not the attempt's own. */
  predicate Misnames(e: Engine, owner: Owner, named: Option<Id>) {
    || named.None?
    || (named.value in Keys(e.owners) && Entry(named.value, owner) !in e.owners)
    || (owner in e.nativeOf && e.nativeOf[owner] != named.value)
  }

  /** The transport is lost, a request times out for good, or the response to a
      `turn/start` misnames its turn. */
  predicate Dies(e: Engine, step: Step) {
    && !e.closed && !e.dead
    && match step
       case TransportLost => true
       case TimedOut(id, fatal) => fatal && id in e.pending
       case Response(id, named) => id in e.pending && e.pending[id].Some? && Misnames(e, e.pending[id].value, named)
       case _ => false
  }

  lemma {:induction false} EntryIsGot<V>(table: seq<Entry<V>>, key: Id, value: V)
    requires Distinct(Keys(table))
    ensures Entry(key, value) in table <==> Get(table, key) == Some(value)
  {
    if table != [] {
      var n := |table| - 1;
      assert Keys(table) == Keys(table[..n]) + [table[n].key];
      DistinctSnoc(Keys(table[..n]), table[n].key);
      EntryIsGot(table[..n], key, value);
      GetIsKey(table[..n], key);
      assert table == table[..n] + [table[n]];
    }
  }

  lemma {:induction false} DeleteFirst<V>(table: seq<Entry<V>>)
    requires table != [] && Distinct(Keys(table))
    ensures Get(table, table[0].key) == Some(table[0].value) && Delete(table, table[0].key) == table[1..]
  {
    EntryIsGot(table, table[0].key, table[0].value);
    var n := |table| - 1;
    if n > 0 {
      assert Keys(table)[0] != Keys(table)[n];
      assert Keys(table[..n]) == Keys(table)[..n];
      DeleteFirst(table[..n]);
      assert table[..n][1..] + [table[n]] == table[1..];
    }
  }

  lemma OneEnds(e: Engine, status: Status)
    requires Inv(e) && e.owners != []
    ensures var r := EmitTerminal(e, e.owners[0].key, status);
      && r.callbacks == e.callbacks + [Callback(e.owners[0].key, e.owners[0].value, status)]
      && r.owners == e.owners[1..] && r.deferred == e.deferred
  {
    DeleteFirst(e.owners);
    assert Keys(e.owners)[0] == e.owners[0].key;
  }

  lemma NextEnds(e: Engine, before: Engine, status: Status, k: nat)
    requires Inv(before) && k < |e.owners| && before.owners == e.owners[k..]
    requires before.callbacks == e.callbacks + Ended(e.owners, status)[..k]
    ensures var r := EmitTerminal(before, e.owners[k].key, status);
      && r.callbacks == e.callbacks + Ended(e.owners, status)[..k + 1]
      && r.owners == e.owners[k + 1..] && r.deferred == before.deferred
  {
    OneEnds(before, status);
    assert Ended(e.owners, status)[..k + 1] == Ended(e.owners, status)[..k] + [Ended(e.owners, status)[k]];
    assert e.owners[k..][1..] == e.owners[k + 1..];
  }

  lemma EmitAllSnoc(e: Engine, natives: seq<Id>, status: Status, k: nat)
    requires k < |natives|
    ensures EmitAll(e, natives[..k + 1], status) == EmitTerminal(EmitAll(e, natives[..k], status), natives[k], status)
  {
    assert natives[..k + 1][..k] == natives[..k];
  }

  lemma {:induction false} AllEnd(e: Engine, status: Status, k: nat)
    requires Inv(e) && k <= |e.owners|
    ensures var r := EmitAll(e, Keys(e.owners)[..k], status);
      r.callbacks == e.callbacks + Ended(e.owners, status)[..k] && r.owners == e.owners[k..] && r.deferred == e.deferred
  {
    var natives := Keys(e.owners);
    if k > 0 {
      AllEnd(e, status, k - 1);
      EmitAllShape(e, natives[..k - 1], status);
      EmitAllSnoc(e, natives, status, k - 1);
      NextEnds(e, EmitAll(e, natives[..k - 1], status), status, k - 1);
    }
  }

  lemma EveryoneEnds(e: Engine, status: Status)
    requires Inv(e)
    ensures var r := EmitAll(e, Keys(e.owners), status);
      && Inv(r) && r == e.(terminals := r.terminals, owners := [], callbacks := r.callbacks)
      && r.callbacks == e.callbacks + Ended(e.owners, status)
  {
    AllEnd(e, status, |e.owners|);
    EmitAllShape(e, Keys(e.owners), status);
    assert Keys(e.owners)[..|e.owners|] == Keys(e.owners);
    assert Ended(e.owners, status)[..|e.owners|] == Ended(e.owners, status);
  }

  /** What a response binds is called back at once if its terminal is waiting. */
  function Awaited(e: Engine, step: Step): seq<Callback> {
    if step.Response? && step.id in e.pending && e.pending[step.id].Some? && !Misnames(e, e.pending[step.id].value, step.named)
       && step.named.value !in e.terminals && Get(e.deferred, step.named.value).Some?
    then [Callback(step.named.value, e.pending[step.id].value, Get(e.deferred, step.named.value).value)]
    else []
  }

  /** The callbacks a step makes: every live turn is ended when the engine dies or
      is stopped, a live turn with the status reported for it, and nothing else. */
  function Made(e: Engine, step: Step): seq<Callback> {
    if Dies(e, step) then Ended(e.owners, EngineDead)
    else
      match step
      case Stop => if e.closed then [] else Ended(e.owners, Stopped)
      case Terminal(native, status) =>
        if Get(e.owners, native).Some? then [Callback(native, Get(e.owners, native).value, status)] else []
      case _ => Awaited(e, step)
  }

  lemma MisnamesExactly(e: Engine, owner: Owner, named: Option<Id>)
    requires Inv(e)
    ensures Misnames(e, owner, named) <==> named.None? || Rebinds(e, named.value, owner)
  {
    if named.Some? {
      GetIsKey(e.owners, named.value);
      EntryIsGot(e.owners, named.value, owner);
    }
  }

  lemma {:induction false} StepCallsBack(e: Engine, step: Step)
    requires Inv(e)
    ensures Next(e, step).callbacks == e.callbacks + Made(e, step)
    ensures Next(e, step).deaths == e.deaths + (if Dies(e, step) then 1 else 0)
    ensures Next(e, step).dead <==> e.dead || Dies(e, step)
    ensures Dies(e, step) ==> Next(e, step).owners == [] && Next(e, step).pending == map[]
  {
    match step
    case Response(id, named) => ResponseCallsBack(e, id, named);
    case TimedOut(id, fatal) => DeathCallsBack(e);
    case TransportLost => DeathCallsBack(e);
    case Stop => StopCallsBack(e);
    case Terminal(native, status) => GetIsKey(e.owners, native);
    case _ =>
  }

  lemma DeathCallsBack(e: Engine)
    requires Inv(e)
    ensures var r := FailAll(e); var dies := !e.closed && !e.dead;
      && r.callbacks == e.callbacks + (if dies then Ended(e.owners, EngineDead) else [])
      && r.deaths == e.deaths + (if dies then 1 else 0) && r.pending == map[]
      && (r.dead <==> e.dead || dies) && (dies ==> r.owners == [])
  {
    EveryoneEnds(e.(pending := map[], dead := true), EngineDead);
  }

  lemma StopCallsBack(e: Engine)
    requires Inv(e)
    ensures OnStop(e).callbacks == e.callbacks + (if e.closed then [] else Ended(e.owners, Stopped))
    ensures OnStop(e).deaths == e.deaths && OnStop(e).dead == e.dead
  {
    EveryoneEnds(e.(closed := true), Stopped);
  }

  lemma ResponseCallsBack(e: Engine, id: nat, named: Option<Id>)
    requires Inv(e)
    ensures var step, r := Response(id, named), OnResponse(e, id, named);
      && r.callbacks == e.callbacks + Made(e, step)
      && r.deaths == e.deaths + (if Dies(e, step) then 1 else 0)
      && (r.dead <==> e.dead || Dies(e, step)) && (Dies(e, step) ==> r.owners == [] && r.pending == map[])
  {
    if id in e.pending && e.pending[id].Some? {
      var e1 := e.(pending := e.pending - {id});
      MisnamesExactly(e, e.pending[id].value, named);
      DeathCallsBack(e1);
      if !Misnames(e, e.pending[id].value, named) {
        BindingCallsBack(e1, named.value, e.pending[id].value);
      }
    }
  }

  lemma BindingCallsBack(e: Engine, native: Id, owner: Owner)
    requires Inv(e) && !Rebinds(e, native, owner)
    ensures var r, early := Bind(e, native, owner), Get(e.deferred, native);
      && r.deaths == e.deaths && r.dead == e.dead
      && r.callbacks == e.callbacks
           + (if native !in e.terminals && early.Some? then [Callback(native, owner, early.value)] else [])
  {
    GetIsKey(e.owners, native);
    AppendedGet(e.owners, Entry(native, owner), native);
  }

  // ---------------------------------------------------------------------------
  // The callbacks of a run
  // ---------------------------------------------------------------------------

  /** Request `id` is the `turn/start` that was sent for the attempt. */
  ghost predicate Started(steps: seq<Step>, id: nat, owner: Owner) {
    exists k :: 0 <= k < |steps| && steps[k] == StartTurn(owner, true) && Run(Init(), steps[..k]).nextId == id
  }

  /** The response to a `turn/start` of the attempt named the native turn. */
  ghost predicate Named(steps: seq<Step>, native: Id, owner: Owner) {
    exists k :: 0 <= k < |steps| && NamesAt(steps, k, native, owner)
  }

  ghost predicate NamesAt(steps: seq<Step>, k: nat, native: Id, owner: Owner)
    requires k < |steps|
  {
    steps[k].Response? && steps[k].named == Some(native) && Started(steps[..k], steps[k].id, owner)
  }

  ghost predicate Reports(steps: seq<Step>, native: Id, status: Status) {
    exists k :: 0 <= k < |steps| && steps[k].Terminal? && steps[k].native == native && steps[k].status == status
  }

  /** The engine died, or was stopped, while that attempt's turn was live. */
  ghost predicate EndedAt(steps: seq<Step>, k: nat, c: Callback)
    requires k < |steps|
  {
    var e := Run(Init(), steps[..k]);
    && Entry(c.native, c.owner) in e.owners
    && (if c.status.EngineDead? then Dies(e, steps[k]) else steps[k].Stop? && !e.closed)
  }

  ghost predicate Explained(steps: seq<Step>, c: Callback) {
    && Named(steps, c.native, c.owner)
    && (if c.status.EngineDead? || c.status.Stopped? then exists k :: 0 <= k < |steps| && EndedAt(steps, k, c)
        else Reports(steps, c.native, c.status))
  }

  /** Where everything in the engine comes from. */
  ghost predicate Sourced(steps: seq<Step>) {
    var e := Run(Init(), steps);
    && (forall id :: id in e.pending && e.pending[id].Some? ==> Started(steps, id, e.pending[id].value))
    && (forall entry :: entry in e.owners ==> Named(steps, entry.key, entry.value))
    && (forall entry :: entry in e.deferred ==> Reports(steps, entry.key, entry.value))
  }

  lemma StartedMore(steps: seq<Step>, step: Step, id: nat, owner: Owner)
    requires Started(steps, id, owner)
    ensures Started(steps + [step], id, owner)
  {
    var k :| 0 <= k < |steps| && steps[k] == StartTurn(owner, true) && Run(Init(), steps[..k]).nextId == id;
    assert (steps + [step])[..k] == steps[..k] && (steps + [step])[k] == steps[k];
  }

  lemma NamedMore(steps: seq<Step>, step: Step, native: Id, owner: Owner)
    requires Named(steps, native, owner)
    ensures Named(steps + [step], native, owner)
  {
    var k :| 0 <= k < |steps| && NamesAt(steps, k, native, owner);
    assert (steps + [step])[..k] == steps[..k];
    assert NamesAt(steps + [step], k, native, owner);
  }

  lemma ReportsMore(steps: seq<Step>, step: Step, native: Id, status: Status)
    requires Reports(steps, native, status)
    ensures Reports(steps + [step], native, status)
  {
    var k :| 0 <= k < |steps| && steps[k].Terminal? && steps[k].native == native && steps[k].status == status;
    assert (steps + [step])[k] == steps[k];
  }

  lemma ExplainedMore(steps: seq<Step>, step: Step, c: Callback)
    requires Explained(steps, c)
    ensures Explained(steps + [step], c)
  {
    NamedMore(steps, step, c.native, c.owner);
    if c.status.EngineDead? || c.status.Stopped? {
      var k :| 0 <= k < |steps| && EndedAt(steps, k, c);
      assert (steps + [step])[..k] == steps[..k];
      assert EndedAt(steps + [step], k, c);
    } else {
      ReportsMore(steps, step, c.native, c.status);
    }
  }

  lemma LastStarts(steps: seq<Step>, owner: Owner)
    ensures Started(steps + [StartTurn(owner, true)], Run(Init(), steps).nextId, owner)
  {
    var more := steps + [StartTurn(owner, true)];
    assert more[..|steps|] == steps && more[|steps|] == StartTurn(owner, true);
  }

  lemma LastNames(steps: seq<Step>, id: nat, native: Id, owner: Owner)
    requires Started(steps, id, owner)
    ensures Named(steps + [Response(id, Some(native))], native, owner)
  {
    var more := steps + [Response(id, Some(native))];
    assert more[..|steps|] == steps;
    assert NamesAt(more, |steps|, native, owner);
  }

  lemma LastReports(steps: seq<Step>, native: Id, status: Reported)
    ensures Reports(steps + [Terminal(native, status)], native, status)
  {
    assert (steps + [Terminal(native, status)])[|steps|] == Terminal(native, status);
  }

  /** A step takes over what is in the engine, drops some of it, or adds what it
      says itself. */
  ghost predicate Adds(e: Engine, step: Step, r: Engine) {
    && (forall id :: id in r.pending && r.pending[id].Some? ==>
          (id in e.pending && e.pending[id] == r.pending[id]) || (step == StartTurn(r.pending[id].value, true) && id == e.nextId))
    && (forall entry :: entry in r.owners ==>
          entry in e.owners
          || (step.Response? && step.named == Some(entry.key) && step.id in e.pending && e.pending[step.id] == Some(entry.value)))
    && (forall entry :: entry in r.deferred ==>
          entry in e.deferred || (step.Terminal? && entry.key == step.native && entry.value == step.status))
  }

  lemma {:induction false} DeleteSubset<V>(table: seq<Entry<V>>, key: Id)
    ensures forall entry :: entry in Delete(table, key) ==> entry in table
  {
    if table != [] {
      DeleteSubset(table[..|table| - 1], key);
    }
  }

  lemma EmitAdds(e: Engine, native: Id, status: Status)
    ensures var r := EmitTerminal(e, native, status);
      && r.pending == e.pending
      && (forall entry :: entry in r.owners ==> entry in e.owners)
      && (forall entry :: entry in r.deferred ==> entry in e.deferred || entry == Entry(native, status))
      && (Get(e.owners, native).Some? ==> r.deferred == e.deferred)
  {
    DeleteSubset(e.owners, native);
  }

  lemma {:induction false} NextAdds(e: Engine, step: Step)
    requires Inv(e)
    ensures Adds(e, step, Next(e, step))
  {
    match step
    case Response(id, named) => ResponseAdds(e, id, named);
    case TimedOut(id, fatal) => DeathAdds(e);
    case TransportLost => DeathAdds(e);
    case Stop => StopAdds(e);
    case Terminal(native, status) => EmitAdds(e, native, status);
    case _ =>
  }

  lemma DeathAdds(e: Engine)
    requires Inv(e)
    ensures FailAll(e).pending == map[] && FailAll(e).deferred == e.deferred
    ensures FailAll(e).owners == [] || FailAll(e).owners == e.owners
  {
    if !e.closed && !e.dead {
      EveryoneEnds(e.(pending := map[], dead := true), EngineDead);
    }
  }

  lemma StopAdds(e: Engine)
    requires Inv(e)
    ensures Adds(e, Stop, OnStop(e))
  {
    EveryoneEnds(e.(closed := true), Stopped);
  }

  lemma ResponseAdds(e: Engine, id: nat, named: Option<Id>)
    requires Inv(e)
    ensures Adds(e, Response(id, named), OnResponse(e, id, named))
  {
    if id in e.pending && e.pending[id].Some? {
      var e1 := e.(pending := e.pending - {id});
      DeathAdds(e1);
      if named.Some? && !Rebinds(e1, named.value, e.pending[id].value) {
        BindAdds(e1, named.value, e.pending[id].value);
      }
    }
  }

  lemma BindAdds(e: Engine, native: Id, owner: Owner)
    requires Inv(e) && !Rebinds(e, native, owner)
    ensures var r := Bind(e, native, owner);
      && r.pending == e.pending
      && (forall entry :: entry in r.owners ==> entry in e.owners || entry == Entry(native, owner))
      && (forall entry :: entry in r.deferred ==> entry in e.deferred)
  {
    var early := Get(e.deferred, native);
    if early.Some? {
      var owned := if native in e.terminals || Get(e.owners, native).Some? then e.owners else e.owners + [Entry(native, owner)];
      var e1 := e.(owners := owned, nativeOf := e.nativeOf[owner := native], bound := e.bound + [native]);
      AppendedGet(e.owners, Entry(native, owner), native);
      DeleteSubset(e.deferred, native);
      EmitAdds(e1.(deferred := Delete(e1.deferred, native)), native, early.value);
    }
  }

  lemma {:induction false} RunSourced(steps: seq<Step>)
    ensures Sourced(steps)
  {
    if steps != [] {
      var before, step := steps[..|steps| - 1], steps[|steps| - 1];
      RunSourced(before);
      RunKeeps(before);
      NextAdds(Run(Init(), before), step);
      SourcedMore(before, step);
      assert steps == before + [step];
    }
  }

  lemma SourcedMore(steps: seq<Step>, step: Step)
    requires Sourced(steps) && Adds(Run(Init(), steps), step, Next(Run(Init(), steps), step))
    ensures Sourced(steps + [step])
  {
    RunSnoc(Init(), steps, step);
    var e, r := Run(Init(), steps), Next(Run(Init(), steps), step);
    forall id | id in r.pending && r.pending[id].Some? ensures Started(steps + [step], id, r.pending[id].value) {
      if id in e.pending && e.pending[id] == r.pending[id] {
        StartedMore(steps, step, id, r.pending[id].value);
      } else {
        LastStarts(steps, r.pending[id].value);
      }
    }
    forall entry | entry in r.owners ensures Named(steps + [step], entry.key, entry.value) {
      if entry in e.owners {
        NamedMore(steps, step, entry.key, entry.value);
      } else {
        LastNames(steps, step.id, entry.key, entry.value);
      }
    }
    forall entry | entry in r.deferred ensures Reports(steps + [step], entry.key, entry.value) {
      if entry in e.deferred {
        ReportsMore(steps, step, entry.key, entry.value);
      } else {
        LastReports(steps, step.native, step.status);
      }
    }
  }

  lemma {:induction false} GotIsEntry<V>(table: seq<Entry<V>>, key: Id)
    requires Get(table, key).Some?
    ensures Entry(key, Get(table, key).value) in table
  {
    if table[|table| - 1].key == key {
      assert table[|table| - 1] == Entry(key, Get(table, key).value);
    } else {
      GotIsEntry(table[..|table| - 1], key);
    }
  }

  lemma EndedIsExplained(steps: seq<Step>, step: Step, c: Callback)
    requires Sourced(steps) && c in Made(Run(Init(), steps), step) && (Dies(Run(Init(), steps), step) || step.Stop?)
    ensures Explained(steps + [step], c)
  {
    var e := Run(Init(), steps);
    var more := steps + [step];
    assert more[..|steps|] == steps && more[|steps|] == step;
    var k :| 0 <= k < |e.owners| && c == Callback(e.owners[k].key, e.owners[k].value, if Dies(e, step) then EngineDead else Stopped);
    assert e.owners[k] == Entry(c.native, c.owner);
    NamedMore(steps, step, c.native, c.owner);
    assert EndedAt(more, |steps|, c);
  }

  lemma TerminalIsExplained(steps: seq<Step>, native: Id, status: Reported)
    requires Sourced(steps) && Get(Run(Init(), steps).owners, native).Some?
    ensures Explained(steps + [Terminal(native, status)], Callback(native, Get(Run(Init(), steps).owners, native).value, status))
  {
    var owners := Run(Init(), steps).owners;
    GotIsEntry(owners, native);
    NamedMore(steps, Terminal(native, status), native, Get(owners, native).value);
    LastReports(steps, native, status);
  }

  lemma AnswerIsExplained(steps: seq<Step>, id: nat, native: Id, owner: Owner, status: Status)
    requires Started(steps, id, owner) && Reports(steps, native, status)
    ensures Explained(steps + [Response(id, Some(native))], Callback(native, owner, status))
  {
    LastNames(steps, id, native, owner);
    ReportsMore(steps, Response(id, Some(native)), native, status);
    WaitingIsReported(steps, native, status);
  }

  lemma WaitingWasReported(steps: seq<Step>, native: Id)
    requires Sourced(steps) && Get(Run(Init(), steps).deferred, native).Some?
    ensures Reports(steps, native, Get(Run(Init(), steps).deferred, native).value)
  {
    GotIsEntry(Run(Init(), steps).deferred, native);
  }

  lemma PendingWasStarted(steps: seq<Step>, id: nat)
    requires Sourced(steps) && id in Run(Init(), steps).pending && Run(Init(), steps).pending[id].Some?
    ensures Started(steps, id, Run(Init(), steps).pending[id].value)
  {
  }

  lemma AwaitedIsExplained(steps: seq<Step>, step: Step, c: Callback)
    requires Sourced(steps) && c in Awaited(Run(Init(), steps), step)
    ensures Explained(steps + [step], c)
  {
    var e := Run(Init(), steps);
    WaitingWasReported(steps, step.named.value);
    PendingWasStarted(steps, step.id);
    AnswerIsExplained(steps, step.id, step.named.value, e.pending[step.id].value, Get(e.deferred, step.named.value).value);
    assert step == Response(step.id, Some(step.named.value));
  }

  lemma MadeIsExplained(steps: seq<Step>, step: Step, c: Callback)
    requires Sourced(steps) && c in Made(Run(Init(), steps), step)
    ensures Explained(steps + [step], c)
  {
    if Dies(Run(Init(), steps), step) || step.Stop? {
      EndedIsExplained(steps, step, c);
    } else if step.Terminal? {
      TerminalIsExplained(steps, step.native, step.status);
    } else {
      AwaitedIsExplained(steps, step, c);
    }
  }

  lemma WaitingIsReported(steps: seq<Step>, native: Id, status: Status)
    requires Reports(steps, native, status)
    ensures !status.EngineDead? && !status.Stopped?
  {
  }

  /** In every run: a callback answers the attempt whose `turn/start` response named
      the turn; it says finished, failed or aborted only if app-server reported
      just that for the turn, and engine-dead or stopped only if the engine died or
      was stopped while the turn was that attempt's live turn. */
  lemma {:induction false} EveryCallbackIsExplained(steps: seq<Step>)
    ensures forall c :: c in Run(Init(), steps).callbacks ==> Explained(steps, c)
  {
    if steps != [] {
      var before, step := steps[..|steps| - 1], steps[|steps| - 1];
      assert steps == before + [step];
      EveryCallbackIsExplained(before);
      RunSourced(before);
      RunKeeps(before);
      StepCallsBack(Run(Init(), before), step);
      forall c | c in Run(Init(), steps).callbacks ensures Explained(steps, c) {
        if c in Run(Init(), before).callbacks {
          ExplainedMore(before, step, c);
        } else {
          MadeIsExplained(before, step, c);
        }
      }
    }
  }

  /** The engine dies at most once, and then every turn that was live is called
      back as engine-dead, in the order the turns were bound. */
  lemma {:induction false} EngineDiesOnce(steps: seq<Step>)
    ensures Run(Init(), steps).deaths == if Run(Init(), steps).dead then 1 else 0
  {
    if steps != [] {
      EngineDiesOnce(steps[..|steps| - 1]);
      RunKeeps(steps[..|steps| - 1]);
      StepCallsBack(Run(Init(), steps[..|steps| - 1]), steps[|steps| - 1]);
    }
  }
}
