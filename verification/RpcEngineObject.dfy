/**
 The RPC engine as the source writes it: one object whose methods update its
 maps and sets in place, proved to do what `RpcEngine.Next` says.
 */
module RpcEngineObject {
  import opened Options
  import opened RpcEngine

  class CodexRpcEngine {
    var nextId: nat
    var pending: map<nat, Option<Owner>>
    var turnOwners: seq<Entry<Owner>>
    var nativeTurnByOwner: map<Owner, Id>
    var terminalNativeTurns: seq<Id>
    var deferredUnownedTerminals: seq<Entry<Status>>
    var closed: bool
    var deadNotified: bool
    ghost var callbacks: seq<Callback>
    ghost var deaths: nat
    ghost var bound: seq<Id>

    constructor ()
      ensures View() == Init()
    {
      nextId, pending, turnOwners, nativeTurnByOwner := 1, map[], [], map[];
      terminalNativeTurns, deferredUnownedTerminals, closed, deadNotified := [], [], false, false;
      callbacks, deaths, bound := [], 0, [];
    }

    ghost function View(): Engine
      reads this
    {
      Engine(nextId, pending, turnOwners, nativeTurnByOwner, terminalNativeTurns, deferredUnownedTerminals,
             closed, deadNotified, callbacks, deaths, bound)
    }

    /** Removes and returns the native id a sender was waiting for. */
    method TakeNativeTurnId(owner: Owner) returns (native: Option<Id>)
      modifies this`nativeTurnByOwner
      ensures View() == Next(old(View()), Take(owner))
      ensures native == if owner in old(nativeTurnByOwner) then Some(old(nativeTurnByOwner)[owner]) else None
    {
      native := if owner in nativeTurnByOwner then Some(nativeTurnByOwner[owner]) else None;
      nativeTurnByOwner := nativeTurnByOwner - {owner};
    }

    method BindNativeTurn(native: Id, owner: Owner) returns (ok: bool)
      modifies this
      ensures ok == !Rebinds(old(View()), native, owner)
      ensures View() == if ok then Bind(old(View()), native, owner) else old(View())
    {
      var existing := Get(turnOwners, native);
      if existing.Some? && existing != Some(owner) {
        return false;
      }
      if owner in nativeTurnByOwner && nativeTurnByOwner[owner] != native {
        return false;
      }
      bound := bound + [native];
      if native !in terminalNativeTurns && existing.None? {
        turnOwners := turnOwners + [Entry(native, owner)];
      }
      nativeTurnByOwner := nativeTurnByOwner[owner := native];
      var early := Get(deferredUnownedTerminals, native);
      if early.Some? {
        deferredUnownedTerminals := Delete(deferredUnownedTerminals, native);
        EmitTurnTerminal(native, early.value);
      }
      ok := true;
    }

    method EmitTurnTerminal(native: Id, status: Status)
      modifies this`turnOwners, this`terminalNativeTurns, this`deferredUnownedTerminals, this`callbacks
      ensures View() == EmitTerminal(old(View()), native, status)
    {
      if native in terminalNativeTurns {
        return;
      }
      var owner := Get(turnOwners, native);
      if owner.None? {
        if Get(deferredUnownedTerminals, native).None? {
          deferredUnownedTerminals := deferredUnownedTerminals + [Entry(native, status)];
        }
        if |deferredUnownedTerminals| > LIMIT {
          deferredUnownedTerminals := deferredUnownedTerminals[1..];
        }
        return;
      }
      terminalNativeTurns := terminalNativeTurns + [native];
      if |terminalNativeTurns| > LIMIT {
        terminalNativeTurns := terminalNativeTurns[1..];
      }
      turnOwners := Delete(turnOwners, native);
      callbacks := callbacks + [Callback(native, owner.value, status)];
    }

    /** Every live turn gets a terminal, in the order the turns were bound. */
    method EmitAllTurnTerminals(status: Status)
      modifies this`turnOwners, this`terminalNativeTurns, this`deferredUnownedTerminals, this`callbacks
      ensures View() == EmitAll(old(View()), Keys(old(turnOwners)), status)
    {
      var natives := Keys(turnOwners);
      for k := 0 to |natives|
        invariant View() == EmitAll(old(View()), natives[..k], status)
      {
        assert natives[..k + 1][..k] == natives[..k];
        EmitTurnTerminal(natives[k], status);
      }
      assert natives[..|natives|] == natives;
    }

    method FailAll()
      modifies this
      ensures View() == RpcEngine.FailAll(old(View()))
    {
      pending := map[];
      if !closed && !deadNotified {
        deadNotified := true;
        EmitAllTurnTerminals(EngineDead);
        deaths := deaths + 1;
      }
    }

    /** `request`, up to the frame leaving the socket or failing to. */
    method Request(owner: Option<Owner>, sends: bool) returns (dispatched: bool)
      modifies this`nextId, this`pending
      ensures View() == RpcEngine.Request(old(View()), owner, sends)
      ensures dispatched ==> sends && old(nextId) in pending
    {
      if owner.Some? && exists id :: id in pending && pending[id].Some? {
        return false;
      }
      var id := nextId;
      nextId := nextId + 1;
      pending := pending[id := owner];
      if !sends {
        pending := pending - {id};
        assert pending == old(pending) - {id};
      }
      dispatched := sends;
    }

    method ResponseReceived(id: nat, native: Option<Id>)
      modifies this
      ensures View() == OnResponse(old(View()), id, native)
    {
      if id !in pending {
        return;
      }
      var owner := pending[id];
      pending := pending - {id};
      if owner.None? {
        return;
      }
      var ok := false;
      if native.Some? {
        ok := BindNativeTurn(native.value, owner.value);
      }
      if !ok {
        FailAll();
      }
    }

    method RequestTimedOut(id: nat, fatal: bool)
      modifies this
      ensures View() == Next(old(View()), TimedOut(id, fatal))
    {
      if id !in pending {
        return;
      }
      if fatal {
        FailAll();
      } else {
        pending := pending - {id};
      }
    }

    method StopEngine()
      modifies this
      ensures View() == OnStop(old(View()))
    {
      if closed {
        return;
      }
      closed := true;
      EmitAllTurnTerminals(Stopped);
      deferredUnownedTerminals := [];
      FailAll();
    }

    method Handle(step: Step)
      modifies this
      ensures View() == Next(old(View()), step)
    {
      match step {
        case StartTurn(owner, sends) => var _ := Request(Some(owner), sends);
        case OtherRequest(sends) => var _ := Request(None, sends);
        case Response(id, native) => ResponseReceived(id, native);
        case ErrorResponse(id) => pending := pending - {id};
        case TimedOut(id, fatal) => RequestTimedOut(id, fatal);
        case Terminal(native, status) => EmitTurnTerminal(native, status);
        case Take(owner) => var _ := TakeNativeTurnId(owner);
        case TransportLost => if !closed { FailAll(); }
        case Stop => StopEngine();
      }
    }
  }

  /** A whole life of the object is a run of the state machine. */
  method Drive(steps: seq<Step>) returns (engine: CodexRpcEngine)
    ensures fresh(engine) && engine.View() == Run(Init(), steps)
  {
    engine := new CodexRpcEngine();
    for k := 0 to |steps|
      invariant engine.View() == Run(Init(), steps[..k])
    {
      engine.Handle(steps[k]);
      assert steps[..k + 1][..k] == steps[..k];
    }
    assert steps[..|steps|] == steps;
  }
}
