/**
 Runner, link and worker of the control channel together, over a link that may
 drop at any moment: what is queued, in flight, held and applied in every run.
 */
module ControlWorld {
  import opened Options
  import opened FinalTransaction
  import opened ControlChannel

  // ---------------------------------------------------------------------------
  // Transactions
  // ---------------------------------------------------------------------------

  /** The assembler takes record `position` of `block`, and yields `delivery`
      exactly at the last one. */
  predicate Takes(block: seq<Record>, position: nat, delivery: Delivery)
    requires position < |block|
  {
    var result := Accept(Fed(block[..position]), block[position]);
    if position < |block| - 1 then result.Accepted?
    else result == Complete(delivery)
         || (result == NotFinal && Fed(block[..position]).None? && block[position].Marker?
             && delivery == Noted(block[position].payload))
  }

  ghost predicate Transacts(block: seq<Record>, delivery: Delivery) {
    block != [] && forall position :: 0 <= position < |block| ==> Takes(block, position, delivery)
  }

  lemma HeldMore(block: seq<Record>, position: nat)
    requires position < |block|
    ensures Fed(block[..position + 1])
         == match Accept(Fed(block[..position]), block[position])
            case Accepted(assembly) => Some(assembly)
            case _ => None
  {
    assert block[..position + 1][..position] == block[..position];
  }

  lemma {:induction false} EncodingHeld(e: Emission, position: nat)
    requires position < |Encode(e)|
    ensures Fed(Encode(e)[..position]) == Partial(e, position)
  {
    if position > 0 {
      EncodingHeld(e, position - 1);
      HeldMore(Encode(e), position - 1);
      AssemblesInOrder(e, position - 1);
    }
  }

  /** The encoding of an emission is a transaction that delivers it. */
  lemma {:induction false} EncodingTransacts(e: Emission)
    ensures Transacts(Encode(e), Delivered(e))
  {
    forall position | 0 <= position < |Encode(e)| ensures Takes(Encode(e), position, Delivered(e)) {
      EncodingHeld(e, position);
      AssemblesInOrder(e, position);
    }
  }

  // ---------------------------------------------------------------------------
  // The world
  // ---------------------------------------------------------------------------

  /** `blocks` and `deliveries` are what was emitted, as records and as what it
      should deliver; `emitted` holds every record that was numbered; `wire` and
      `acks` are in flight on the current connection. */
  datatype World = World(
    blocks: seq<seq<Record>>,
    deliveries: seq<Delivery>,
    emitted: seq<Record>,
    sender: Sender,
    wire: seq<Signed>,
    acks: seq<nat>,
    worker: Worker,
    conn: Option<Conn>)

  datatype Event =
    | Emits(emission: Emission)
    | Connects
    | Welcomed
    | Delivers(applies: bool)
    | AckArrives
    | Closes
    | WorkerCloses

  function Start(): World {
    World([], [], [], Sender(0, 0, 0, [], false, Down), [], [], Worker(0, []), None)
  }

  /** One record is numbered and, when the link is up, written. */
  function EmitRecord(w: World, record: Record): World {
    var (sender, written) := Emit(w.sender, record);
    if w.sender.fatal then w
    else if sender.fatal then w.(sender := sender, wire := [], acks := [], conn := None)
    else w.(emitted := w.emitted + [record], sender := sender, wire := if w.conn.Some? then w.wire + written else w.wire)
  }

  function EmitRecords(w: World, records: seq<Record>): World {
    if records == [] then w else EmitRecord(EmitRecords(w, records[..|records| - 1]), records[|records| - 1])
  }

  function EmitBlock(w: World, block: seq<Record>, delivery: Delivery): World {
    if w.sender.fatal then w
    else EmitRecords(w.(blocks := w.blocks + [block], deliveries := w.deliveries + [delivery]), block)
  }

  function Step(w: World, event: Event): World {
    match event
    case Emits(emission) => EmitBlock(w, Encode(emission), Delivered(emission))
    case Connects =>
      if w.sender.fatal || !w.sender.link.Down? then w else w.(sender := Connect(w.sender), wire := [], acks := [], conn := None)
    case Welcomed =>
      if w.sender.fatal || !w.sender.link.Greeting? then w
      else
        var (sender, written) := Welcome(w.sender);
        w.(sender := sender, wire := written, conn := Some(Conn(None, None)))
    case Delivers(applies) => if w.wire == [] || w.conn.None? then w else Deliver(w, applies)
    case AckArrives => if w.acks == [] then w else w.(sender := Acked(w.sender, w.acks[0]), acks := w.acks[1..])
    case Closes => w.(sender := Closed(w.sender), wire := [], acks := [], conn := None)
    case WorkerCloses => w.(wire := [], conn := None)
  }

  function Deliver(w: World, applies: bool): World
    requires w.wire != [] && w.conn.Some?
  {
    match Receive(w.worker, w.conn.value, w.wire[0], applies)
    case Ack(worker, conn, number) => w.(worker := worker, conn := Some(conn), wire := w.wire[1..], acks := w.acks + [number])
    case Held(conn) => w.(conn := Some(conn), wire := w.wire[1..])
    case Destroyed => w.(wire := [], conn := None)
  }

  function Run(events: seq<Event>): World {
    if events == [] then Start() else Step(Run(events[..|events| - 1]), events[|events| - 1])
  }

  // ---------------------------------------------------------------------------
  // Blocks and their records
  // ---------------------------------------------------------------------------

  function Flatten<T>(blocks: seq<seq<T>>): seq<T> {
    if blocks == [] then [] else Flatten(blocks[..|blocks| - 1]) + blocks[|blocks| - 1]
  }

  /** The records before block `count`. */
  function Offset<T>(blocks: seq<seq<T>>, count: nat): nat
    requires count <= |blocks|
  {
    |Flatten(blocks[..count])|
  }

  lemma {:induction false} FlattenPrefix<T>(blocks: seq<seq<T>>, count: nat)
    requires count <= |blocks|
    ensures Flatten(blocks[..count]) <= Flatten(blocks)
  {
    if count < |blocks| {
      var n := |blocks| - 1;
      assert blocks[..n][..count] == blocks[..count];
      FlattenPrefix(blocks[..n], count);
    } else {
      assert blocks[..count] == blocks;
    }
  }

  /** An item of a prefix of the stream, located by block. */
  lemma PrefixItem<T>(items: seq<T>, blocks: seq<seq<T>>, count: nat, position: nat)
    requires items <= Flatten(blocks) && count < |blocks| && position < |blocks[count]|
    requires Offset(blocks, count) + position < |items|
    ensures items[Offset(blocks, count) + position] == blocks[count][position]
  {
    assert blocks[..count + 1][..count] == blocks[..count];
    FlattenPrefix(blocks, count + 1);
  }

  lemma OffsetMore<T>(blocks: seq<seq<T>>, count: nat)
    requires count < |blocks|
    ensures Offset(blocks, count + 1) == Offset(blocks, count) + |blocks[count]| <= |Flatten(blocks)|
  {
    assert blocks[..count + 1][..count] == blocks[..count];
    FlattenPrefix(blocks, count + 1);
  }

  lemma FlattenMore<T>(blocks: seq<seq<T>>, block: seq<T>)
    ensures Flatten(blocks + [block]) == Flatten(blocks) + block
  {
    assert (blocks + [block])[..|blocks|] == blocks;
  }

  lemma PrefixGrows<T>(items: seq<T>, stream: seq<T>, item: T)
    requires items <= stream && |items| < |stream| && stream[|items|] == item
    ensures items + [item] <= stream
  {
    assert items + [item] == stream[..|items| + 1];
  }

  // ---------------------------------------------------------------------------
  // The invariant
  // ---------------------------------------------------------------------------

  /** `markers` are the records numbered `from + 1` onwards. */
  ghost predicate Numbers(markers: seq<Signed>, emitted: seq<Record>, from: nat) {
    && from + |markers| <= |emitted|
    && forall k {:trigger markers[k]} :: 0 <= k < |markers| ==> markers[k] == Signed(from + k + 1, emitted[from + k])
  }

  ghost predicate QueueExact(s: Sender, emitted: seq<Record>) {
    && s.issued == |emitted| && s.acked <= s.sentThrough <= s.issued
    && |s.queue| == s.issued - s.acked && Numbers(s.queue, emitted, s.acked)
    && (MayWrite(s) ==> s.sentThrough == s.issued)
    && (s.fatal ==> s.link.Down?)
  }

  /** The records stand where the blocks put them, and the high-water mark is the
      end of the last block applied. */
  ghost predicate Aligned(emitted: seq<Record>, blocks: seq<seq<Record>>, applied: nat, highWater: nat) {
    && emitted <= Flatten(blocks)
    && applied <= |blocks|
    && highWater == Offset(blocks, applied) <= |emitted|
  }

  ghost predicate AllTransact(blocks: seq<seq<Record>>, deliveries: seq<Delivery>) {
    && |blocks| == |deliveries|
    && forall k {:trigger blocks[k]} :: 0 <= k < |blocks| ==> Transacts(blocks[k], deliveries[k])
  }

  ghost predicate WorkerExact(w: World) {
    && AllTransact(w.blocks, w.deliveries)
    && Aligned(w.emitted, w.blocks, |w.worker.applied|, w.worker.highWater)
    && w.worker.applied == w.deliveries[..|w.worker.applied|]
  }

  ghost predicate AcksExact(w: World) {
    && w.sender.acked <= w.worker.highWater
    && forall k :: 0 <= k < |w.acks| ==> 0 < w.acks[k] <= w.worker.highWater && w.acks[k] <= w.sender.sentThrough
  }

  function Taken(w: World): int {
    w.sender.sentThrough - |w.wire|
  }

  /** The wire continues where the connection's fence stands, and the assembler
      holds exactly the part of one block above the high-water mark. */
  ghost predicate LinkExact(w: World) {
    w.conn.Some? ==>
      && w.sender.link.Active? && !w.sender.fatal && Taken(w) >= 0
      && Numbers(w.wire, w.emitted, Taken(w))
      && (if w.conn.value.previous.Some? then w.conn.value.previous.value == Taken(w) else Taken(w) <= w.worker.highWater)
      && (if Taken(w) <= w.worker.highWater then w.conn.value.assembly.None?
          else HeldWithin(w.blocks, |w.worker.applied|, Taken(w) - w.worker.highWater, w.conn.value.assembly))
  }

  ghost predicate HeldWithin(blocks: seq<seq<Record>>, applied: nat, position: nat, assembly: Option<Assembly>) {
    applied < |blocks| && position < |blocks[applied]| && assembly == Fed(blocks[applied][..position])
  }

  ghost predicate Inv(w: World) {
    QueueExact(w.sender, w.emitted) && WorkerExact(w) && AcksExact(w) && LinkExact(w)
  }

  /** The last acknowledgement that was made on this connection, arrived or not. */
  function Acknowledged(w: World): nat {
    if w.acks != [] && w.acks[|w.acks| - 1] > w.sender.acked then w.acks[|w.acks| - 1] else w.sender.acked
  }

  /** What a live connection has taken is acknowledged up to the high-water mark:
      replayed markers one by one, new ones as they are applied. */
  predicate Acknowledges(w: World) {
    w.conn.Some? ==> Acknowledged(w) >= Taken(w) || Acknowledged(w) >= w.worker.highWater
  }

  /** A live connection has taken and acknowledged as much as before. */
  predicate SameReceipts(w: World, r: World) {
    r.conn.Some? ==>
      w.conn.Some? && Taken(r) == Taken(w) && Acknowledged(r) == Acknowledged(w) && r.worker.highWater == w.worker.highWater
  }

  // ---- emitting ---------------------------------------------------------------

  lemma {:induction false} AllUnsent(queue: seq<Signed>, emitted: seq<Record>, from: nat)
    requires Numbers(queue, emitted, from)
    ensures Write(queue, from) == (queue, from + |queue|)
  {
    if queue != [] {
      assert queue[0].number == from + 1;
      AllUnsent(queue[1..], emitted, from + 1);
      assert [queue[0]] + queue[1..] == queue;
    }
  }

  lemma {:induction false} WrittenAlready(queue: seq<Signed>, more: seq<Signed>, sentThrough: nat)
    requires forall k :: 0 <= k < |queue| ==> queue[k].number <= sentThrough
    ensures Write(queue + more, sentThrough) == Write(more, sentThrough)
  {
    if queue == [] {
      assert queue + more == more;
    } else {
      assert (queue + more)[1..] == queue[1..] + more;
      WrittenAlready(queue[1..], more, sentThrough);
    }
  }

  /** Emitting numbers one more marker and writes it at once if it may. */
  lemma EmitExtends(s: Sender, emitted: seq<Record>, record: Record)
    requires !s.fatal && |s.queue| < QUEUE_LIMIT && QueueExact(s, emitted)
    ensures var last := Signed(s.issued + 1, record);
      Emit(s, record) == (s.(issued := s.issued + 1, queue := s.queue + [last],
                             sentThrough := if MayWrite(s) then s.issued + 1 else s.sentThrough),
                          if MayWrite(s) then [last] else [])
  {
    var last := Signed(s.issued + 1, record);
    if MayWrite(s) {
      WrittenAlready(s.queue, [last], s.sentThrough);
      assert [last] + [] == [last];
    }
  }

  lemma NumbersExtend(markers: seq<Signed>, emitted: seq<Record>, from: nat, record: Record)
    requires Numbers(markers, emitted, from) && from + |markers| == |emitted|
    ensures Numbers(markers + [Signed(|emitted| + 1, record)], emitted + [record], from)
  {
  }

  lemma QueueGrows(s: Sender, r: Sender, emitted: seq<Record>, record: Record)
    requires QueueExact(s, emitted) && !s.fatal
    requires r == s.(issued := s.issued + 1, queue := s.queue + [Signed(s.issued + 1, record)],
                     sentThrough := if MayWrite(s) then s.issued + 1 else s.sentThrough)
    ensures QueueExact(r, emitted + [record])
  {
    NumbersExtend(s.queue, emitted, s.acked, record);
  }

  lemma WireGrows(w: World, r: World, record: Record)
    requires LinkExact(w) && w.conn.Some? && w.sender.sentThrough == |w.emitted|
    requires r.wire == w.wire + [Signed(|w.emitted| + 1, record)] && r.emitted == w.emitted + [record]
    requires r.sender.link == w.sender.link && !r.sender.fatal && r.sender.sentThrough == w.sender.sentThrough + 1
    requires r.conn == w.conn && r.worker == w.worker && r.blocks == w.blocks
    ensures LinkExact(r)
  {
    NumbersExtend(w.wire, w.emitted, Taken(w), record);
    assert Taken(r) == Taken(w);
  }

  lemma EmitRecordKeeps(w: World, record: Record)
    requires Inv(w) && !w.sender.fatal
    requires |w.emitted| < |Flatten(w.blocks)| && Flatten(w.blocks)[|w.emitted|] == record
    ensures Inv(EmitRecord(w, record))
    ensures !EmitRecord(w, record).sender.fatal ==> EmitRecord(w, record).emitted == w.emitted + [record]
    ensures SameReceipts(w, EmitRecord(w, record))
  {
    if |w.sender.queue| < QUEUE_LIMIT {
      EmitExtends(w.sender, w.emitted, record);
      var r := EmitRecord(w, record);
      QueueGrows(w.sender, r.sender, w.emitted, record);
      PrefixGrows(w.emitted, Flatten(w.blocks), record);
      if w.conn.Some? {
        WireGrows(w, r, record);
      }
    }
  }

  lemma {:induction false} EmitRecordsKeeps(w: World, records: seq<Record>)
    requires Inv(w) && !w.sender.fatal
    requires w.emitted + records <= Flatten(w.blocks)
    ensures var r := EmitRecords(w, records); Inv(r) && (!r.sender.fatal ==> r.emitted == w.emitted + records)
    ensures SameReceipts(w, EmitRecords(w, records))
  {
    if records != [] {
      var n := |records| - 1;
      assert w.emitted + records == w.emitted + records[..n] + [records[n]];
      EmitRecordsKeeps(w, records[..n]);
      var before := EmitRecords(w, records[..n]);
      EmitRecordsFrame(w, records[..n]);
      if !before.sender.fatal {
        assert Flatten(w.blocks)[|before.emitted|] == (w.emitted + records)[|before.emitted|];
        EmitRecordKeeps(before, records[n]);
      }
    } else {
      assert w.emitted + records == w.emitted;
    }
  }

  lemma {:induction false} EmitRecordsFrame(w: World, records: seq<Record>)
    ensures var r := EmitRecords(w, records);
      && r.blocks == w.blocks && r.deliveries == w.deliveries && r.worker == w.worker
      && (r.sender.link.Greeting? ==> w.sender.link.Greeting? && r.sender.sentThrough == w.sender.sentThrough
                                      && r.sender.acked == w.sender.acked && r.acks == w.acks)
  {
    if records != [] {
      EmitRecordsFrame(w, records[..|records| - 1]);
    }
  }

  /** Before any of its records is numbered, a new block changes nothing the
      invariant depends on. */
  lemma BlockOpens(w: World, block: seq<Record>, delivery: Delivery)
    requires Inv(w) && w.emitted == Flatten(w.blocks) && Transacts(block, delivery)
    ensures Inv(w.(blocks := w.blocks + [block], deliveries := w.deliveries + [delivery]))
    ensures Flatten(w.blocks + [block]) == w.emitted + block
  {
    var blocks := w.blocks + [block];
    FlattenMore(w.blocks, block);
    var k := |w.worker.applied|;
    assert blocks[..k] == w.blocks[..k];
    assert forall i :: 0 <= i < |w.blocks| ==> blocks[i] == w.blocks[i];
  }

  lemma BlockKeeps(w: World, block: seq<Record>, delivery: Delivery)
    requires Inv(w) && !w.sender.fatal && w.emitted == Flatten(w.blocks) && Transacts(block, delivery)
    ensures var r := EmitBlock(w, block, delivery); Inv(r) && (!r.sender.fatal ==> r.emitted == Flatten(r.blocks))
    ensures SameReceipts(w, EmitBlock(w, block, delivery))
  {
    var w1 := w.(blocks := w.blocks + [block], deliveries := w.deliveries + [delivery]);
    BlockOpens(w, block, delivery);
    EmitRecordsKeeps(w1, block);
    EmitRecordsFrame(w1, block);
  }

  // ---- connecting, acknowledging ------------------------------------------------

  lemma WelcomeKeeps(w: World)
    requires Inv(w) && !w.sender.fatal && w.sender.link.Greeting? && w.sender.sentThrough == w.sender.acked
    ensures Inv(Step(w, Welcomed))
  {
    AllUnsent(w.sender.queue, w.emitted, w.sender.acked);
  }

  lemma {:induction false} DroppedNumbers(queue: seq<Signed>, emitted: seq<Record>, from: nat, acked: nat)
    requires Numbers(queue, emitted, from) && from <= acked <= from + |queue|
    ensures Numbers(Dropped(queue, acked), emitted, acked)
    ensures |Dropped(queue, acked)| == from + |queue| - acked
  {
    if queue != [] && from < acked {
      DroppedNumbers(queue[1..], emitted, from + 1, acked);
    }
  }

  lemma AckedExact(s: Sender, emitted: seq<Record>, ack: nat)
    requires MayWrite(s) && 0 < ack <= s.sentThrough && QueueExact(s, emitted)
    ensures var r := Acked(s, ack);
      && QueueExact(r, emitted) && r == s.(acked := r.acked, queue := r.queue)
      && r.acked == (if ack > s.acked then ack else s.acked)
  {
    DroppedNumbers(s.queue, emitted, s.acked, if ack > s.acked then ack else s.acked);
  }

  lemma AckKeeps(w: World)
    requires Inv(w) && w.acks != []
    ensures Inv(Step(w, AckArrives))
    ensures Step(w, AckArrives).sender.link == w.sender.link
  {
    if MayWrite(w.sender) {
      AckedExact(w.sender, w.emitted, w.acks[0]);
    }
    assert AcksExact(Step(w, AckArrives));
  }

  // ---- delivering ---------------------------------------------------------------

  lemma WireAdvances(w: World)
    requires LinkExact(w) && w.conn.Some? && w.wire != []
    ensures Taken(w) < |w.emitted| && w.wire[0] == Signed(Taken(w) + 1, w.emitted[Taken(w)])
    ensures Numbers(w.wire[1..], w.emitted, Taken(w) + 1)
    ensures w.conn.value.previous.Some? ==> w.wire[0].number == w.conn.value.previous.value + 1
  {
  }

  lemma SeenAgainKeeps(w: World, applies: bool)
    requires Inv(w) && w.conn.Some? && w.wire != [] && Taken(w) < w.worker.highWater
    ensures Inv(Deliver(w, applies)) && Deliver(w, applies).conn.Some?
  {
    WireAdvances(w);
    var r := Deliver(w, applies);
    assert Taken(r) == Taken(w) + 1;
  }

  lemma MoreToApply(emitted: seq<Record>, blocks: seq<seq<Record>>, applied: nat, highWater: nat)
    requires Aligned(emitted, blocks, applied, highWater) && highWater < |emitted|
    ensures applied < |blocks|
  {
    assert blocks[..|blocks|] == blocks;
  }

  /** Above the high-water mark, the next record is the next one of the block the
      worker has yet to apply, and the assembler holds what precedes it. */
  lemma NextRecord(w: World)
    requires Inv(w) && w.conn.Some? && w.wire != [] && Taken(w) >= w.worker.highWater
    ensures var position := Taken(w) - w.worker.highWater; var k := |w.worker.applied|;
      && HeldWithin(w.blocks, k, position, w.conn.value.assembly)
      && w.wire[0].record == w.blocks[k][position]
      && Transacts(w.blocks[k], w.deliveries[k])
  {
    var k := |w.worker.applied|;
    WireAdvances(w);
    MoreToApply(w.emitted, w.blocks, k, w.worker.highWater);
    assert Transacts(w.blocks[k], w.deliveries[k]);
    if Taken(w) == w.worker.highWater {
      assert w.blocks[k][..0] == [];
    }
    PrefixItem(w.emitted, w.blocks, k, Taken(w) - w.worker.highWater);
  }

  /** What the worker makes of that record. */
  lemma Taking(w: World, applies: bool)
    requires Inv(w) && w.conn.Some? && w.wire != [] && Taken(w) >= w.worker.highWater
    ensures var position := Taken(w) - w.worker.highWater; var k := |w.worker.applied|;
      && k < |w.blocks| && position < |w.blocks[k]|
      && Receive(w.worker, w.conn.value, w.wire[0], applies)
         == if position < |w.blocks[k]| - 1
            then Received.Held(Conn(Some(Taken(w) + 1), Fed(w.blocks[k][..position + 1])))
            else Applied(w.worker, Conn(Some(Taken(w) + 1), None), Taken(w) + 1, w.deliveries[k], applies)
  {
    WireAdvances(w);
    NextRecord(w);
    var position, k := Taken(w) - w.worker.highWater, |w.worker.applied|;
    assert Takes(w.blocks[k], position, w.deliveries[k]);
    HeldMore(w.blocks[k], position);
  }

  lemma HeldKeeps(w: World, applies: bool)
    requires Inv(w) && w.conn.Some? && w.wire != [] && Taken(w) >= w.worker.highWater
    requires |w.worker.applied| < |w.blocks| && Taken(w) - w.worker.highWater < |w.blocks[|w.worker.applied|]| - 1
    ensures Inv(Deliver(w, applies)) && Deliver(w, applies).conn.Some?
  {
    Taking(w, applies);
    WireAdvances(w);
    var r := Deliver(w, applies);
    assert Taken(r) == Taken(w) + 1;
  }

  lemma AppliedKeeps(w: World, applies: bool)
    requires Inv(w) && w.conn.Some? && w.wire != [] && Taken(w) >= w.worker.highWater
    requires |w.worker.applied| < |w.blocks| && Taken(w) - w.worker.highWater == |w.blocks[|w.worker.applied|]| - 1
    ensures Inv(Deliver(w, applies)) && (Deliver(w, applies).conn.Some? <==> applies)
  {
    Taking(w, applies);
    WireAdvances(w);
    if applies {
      var k := |w.worker.applied|;
      var r := Deliver(w, applies);
      OffsetMore(w.blocks, k);
      assert Taken(r) == Taken(w) + 1 == r.worker.highWater;
      assert w.deliveries[..k + 1] == w.deliveries[..k] + [w.deliveries[k]];
      assert Aligned(r.emitted, r.blocks, k + 1, r.worker.highWater);
    }
  }

  lemma DeliverKeeps(w: World, applies: bool)
    requires Inv(w) && w.conn.Some? && w.wire != []
    ensures Inv(Deliver(w, applies))
    ensures Deliver(w, applies).conn.None? ==> !applies
  {
    if Taken(w) < w.worker.highWater {
      SeenAgainKeeps(w, applies);
    } else {
      Taking(w, applies);
      if Taken(w) - w.worker.highWater < |w.blocks[|w.worker.applied|]| - 1 {
        HeldKeeps(w, applies);
      } else {
        AppliedKeeps(w, applies);
      }
    }
  }

  // ---- every event --------------------------------------------------------------

  ghost predicate Settled(w: World) {
    && Inv(w)
    && (!w.sender.fatal ==> w.emitted == Flatten(w.blocks))
    && (w.sender.link.Greeting? ==> w.sender.sentThrough == w.sender.acked && w.acks == [])
  }

  lemma EmitsKeeps(w: World, e: Emission)
    requires Settled(w)
    ensures Settled(Step(w, Emits(e)))
  {
    EncodingTransacts(e);
    BlockSettled(w, Encode(e), Delivered(e));
  }

  lemma BlockSettled(w: World, block: seq<Record>, delivery: Delivery)
    requires Settled(w) && Transacts(block, delivery)
    ensures Settled(EmitBlock(w, block, delivery))
  {
    if !w.sender.fatal {
      BlockKeeps(w, block, delivery);
      EmitRecordsFrame(w.(blocks := w.blocks + [block], deliveries := w.deliveries + [delivery]), block);
    }
  }

  lemma LinkEventKeeps(w: World, event: Event)
    requires Settled(w) && (event.Connects? || event.Closes? || event.WorkerCloses?)
    ensures Settled(Step(w, event))
  {
  }

  lemma WelcomedKeeps(w: World)
    requires Settled(w)
    ensures Settled(Step(w, Welcomed))
  {
    if !w.sender.fatal && w.sender.link.Greeting? {
      WelcomeKeeps(w);
    }
  }

  lemma DeliversKeeps(w: World, applies: bool)
    requires Settled(w)
    ensures Settled(Step(w, Delivers(applies)))
  {
    if w.wire != [] && w.conn.Some? {
      DeliverKeeps(w, applies);
    }
  }

  lemma AckArrivesKeeps(w: World)
    requires Settled(w)
    ensures Settled(Step(w, AckArrives))
  {
    if w.acks != [] {
      AckKeeps(w);
    }
  }

  lemma StepKeeps(w: World, event: Event)
    requires Settled(w)
    ensures Settled(Step(w, event))
  {
    match event
    case Emits(e) => EmitsKeeps(w, e);
    case Welcomed => WelcomedKeeps(w);
    case Delivers(applies) => DeliversKeeps(w, applies);
    case AckArrives => AckArrivesKeeps(w);
    case _ => LinkEventKeeps(w, event);
  }

  lemma NothingFlattened<T>(blocks: seq<seq<T>>)
    requires |blocks| == 0
    ensures |Flatten(blocks)| == 0 && Offset(blocks, 0) == 0
  {
    assert |blocks[..0]| == 0;
  }

  lemma FreshQueue(s: Sender, emitted: seq<Record>)
    requires s == Sender(0, 0, 0, [], false, Down) && |emitted| == 0
    ensures QueueExact(s, emitted)
  {
  }

  lemma FreshAligned(emitted: seq<Record>, blocks: seq<seq<Record>>)
    requires |emitted| == |blocks| == 0
    ensures Aligned(emitted, blocks, 0, 0) && emitted == Flatten(blocks)
  {
    NothingFlattened(blocks);
  }

  lemma {:induction false} FreshSettled(w: World)
    requires |w.blocks| == |w.deliveries| == |w.emitted| == |w.worker.applied| == |w.acks| == 0 && w.conn.None?
    requires w.worker.highWater == 0 && w.sender == Sender(0, 0, 0, [], false, Down)
    ensures Settled(w)
  {
    FreshQueue(w.sender, w.emitted);
    FreshAligned(w.emitted, w.blocks);
    FreshWorker(w);
  }

  lemma FreshWorker(w: World)
    requires |w.blocks| == |w.deliveries| == |w.worker.applied| == 0
    requires Aligned(w.emitted, w.blocks, |w.worker.applied|, w.worker.highWater)
    ensures WorkerExact(w)
  {
    assert |w.deliveries[..|w.worker.applied|]| == 0;
  }

  lemma {:induction false} RunSettled(events: seq<Event>)
    ensures Settled(Run(events))
  {
    if events == [] {
      FreshSettled(Start());
    } else {
      RunSettled(events[..|events| - 1]);
      StepKeeps(Run(events[..|events| - 1]), events[|events| - 1]);
    }
  }

  lemma {:induction false} ReceiptsKept(w: World, event: Event)
    requires Settled(w) && Acknowledges(w)
    ensures Acknowledges(Step(w, event))
  {
    match event
    case Emits(e) => EmittingKeepsReceipts(w, e);
    case Welcomed => WelcomedKeepsReceipts(w);
    case Delivers(applies) => DeliveryIsAcknowledged(w, applies);
    case _ =>
  }

  lemma EmittingKeepsReceipts(w: World, e: Emission)
    requires Settled(w)
    ensures SameReceipts(w, Step(w, Emits(e)))
  {
    if !w.sender.fatal {
      EncodingTransacts(e);
      BlockKeeps(w, Encode(e), Delivered(e));
    }
  }

  lemma WelcomedKeepsReceipts(w: World)
    requires Settled(w) && Acknowledges(w)
    ensures Acknowledges(Step(w, Welcomed))
  {
    if !w.sender.fatal && w.sender.link.Greeting? {
      AllUnsent(w.sender.queue, w.emitted, w.sender.acked);
      assert Taken(Step(w, Welcomed)) == w.sender.acked;
    }
  }

  lemma DeliveryIsAcknowledged(w: World, applies: bool)
    requires Settled(w) && Acknowledges(w)
    ensures Acknowledges(Step(w, Delivers(applies)))
  {
    if w.wire != [] && w.conn.Some? {
      WireAdvances(w);
      if Taken(w) >= w.worker.highWater {
        Taking(w, applies);
      }
    }
  }

  lemma {:induction false} RunAcknowledges(events: seq<Event>)
    ensures Acknowledges(Run(events))
  {
    if events != [] {
      RunAcknowledges(events[..|events| - 1]);
      RunSettled(events[..|events| - 1]);
      ReceiptsKept(Run(events[..|events| - 1]), events[|events| - 1]);
    }
  }

  // ---------------------------------------------------------------------------
  // What the channel promises
  // ---------------------------------------------------------------------------

  /** What the runner emitted in a run, up to and including what made it fail. */
  function Emitted(events: seq<Event>): seq<Delivery> {
    if events == [] then []
    else
      var before := Emitted(events[..|events| - 1]);
      var last := events[|events| - 1];
      if last.Emits? && !Run(events[..|events| - 1]).sender.fatal then before + [Delivered(last.emission)] else before
  }

  lemma {:induction false} RunEmitted(events: seq<Event>)
    ensures Run(events).deliveries == Emitted(events)
  {
    if events != [] {
      var before, last := events[..|events| - 1], events[|events| - 1];
      RunEmitted(before);
      StepEmitted(Run(before), last);
    }
  }

  lemma StepEmitted(w: World, event: Event)
    ensures Step(w, event).deliveries
         == if event.Emits? && !w.sender.fatal then w.deliveries + [Delivered(event.emission)] else w.deliveries
  {
    if event.Emits? && !w.sender.fatal {
      var block, delivery := Encode(event.emission), Delivered(event.emission);
      EmitRecordsFrame(w.(blocks := w.blocks + [block], deliveries := w.deliveries + [delivery]), block);
    }
  }

  /** In every run, with any number of disconnects, the runner holds exactly the
      contiguous markers that were not acknowledged. */
  lemma {:induction false} QueueIsUnacknowledged(events: seq<Event>)
    ensures var w := Run(events);
      && w.sender.acked <= w.sender.issued == |w.emitted|
      && |w.sender.queue| == w.sender.issued - w.sender.acked
      && Numbers(w.sender.queue, w.emitted, w.sender.acked)
  {
    RunSettled(events);
  }

  /** In every run the worker has applied a prefix of what the runner emitted:
      each emission at most once, in order, and every final whole. */
  lemma {:induction false} AppliedExactlyOnceInOrder(events: seq<Event>)
    ensures Run(events).worker.applied <= Emitted(events)
    ensures Run(events).sender.acked <= Run(events).worker.highWater <= |Run(events).emitted|
  {
    RunSettled(events);
    RunEmitted(events);
  }

  /** An acknowledgement never exceeds what was sent, so it never destroys the
      connection it arrives on. */
  lemma {:induction false} AcksNeverDestroy(events: seq<Event>)
    ensures Step(Run(events), AckArrives).sender.link == Run(events).sender.link
  {
    RunSettled(events);
    if Run(events).acks != [] {
      AckKeeps(Run(events));
    }
  }

  /** A record the worker can apply is never refused by its fence or assembler. */
  lemma {:induction false} HonestRecordsAreNeverRefused(events: seq<Event>)
    requires Run(events).conn.Some? && Run(events).wire != []
    ensures Step(Run(events), Delivers(true)).conn.Some?
  {
    RunSettled(events);
    DeliverKeeps(Run(events), true);
  }

  /** Nothing is lost: once a live connection has delivered everything that was
      written, everything emitted has been applied. */
  lemma {:induction false} DrainedLinkHasAppliedAll(events: seq<Event>)
    requires Run(events).conn.Some? && Run(events).wire == []
    ensures Run(events).worker.applied == Emitted(events)
  {
    RunSettled(events);
    RunEmitted(events);
    DrainedHasAppliedAll(Run(events));
  }

  lemma DrainedHasAppliedAll(w: World)
    requires Settled(w) && w.conn.Some? && w.wire == []
    ensures w.worker.applied == w.deliveries
  {
    if |w.worker.applied| < |w.blocks| {
      OffsetMore(w.blocks, |w.worker.applied|);
    }
    assert w.deliveries[..|w.deliveries|] == w.deliveries;
  }

  /** And nothing is held for ever: once its acknowledgements have arrived too,
      also those of replayed markers, the runner's queue is empty. */
  lemma {:induction false} QuietLinkHasEmptyQueue(events: seq<Event>)
    requires Run(events).conn.Some? && Run(events).wire == [] && Run(events).acks == []
    ensures Run(events).sender.queue == []
    ensures Run(events).sender.acked == Run(events).worker.highWater == |Run(events).emitted|
  {
    RunSettled(events);
    RunAcknowledges(events);
    QuietHasEmptyQueue(Run(events));
  }

  lemma QuietHasEmptyQueue(w: World)
    requires Settled(w) && Acknowledges(w) && w.conn.Some? && w.wire == [] && w.acks == []
    ensures w.sender.queue == [] && w.sender.acked == w.worker.highWater == |w.emitted|
  {
    DrainedHasAppliedAll(w);
    assert w.blocks[..|w.blocks|] == w.blocks;
  }

  /** In every run the queue holds at most 2048 markers, and the runner fails closed
      exactly when one more is emitted on a full queue. */
  lemma {:induction false} QueueIsBounded(events: seq<Event>)
    ensures var s := Run(events).sender; |s.queue| <= 2_048 && (s.fatal ==> |s.queue| == 2_048)
  {
    if events != [] {
      QueueIsBounded(events[..|events| - 1]);
      StepBounded(Run(events[..|events| - 1]), events[|events| - 1]);
    }
  }

  predicate Bounded(s: Sender) {
    |s.queue| <= 2_048 && (s.fatal ==> |s.queue| == 2_048)
  }

  lemma {:induction false} DroppedShrinks(queue: seq<Signed>, acked: nat)
    ensures |Dropped(queue, acked)| <= |queue|
  {
    if queue != [] {
      DroppedShrinks(queue[1..], acked);
    }
  }

  lemma RecordBounded(w: World, record: Record)
    requires Bounded(w.sender)
    ensures Bounded(EmitRecord(w, record).sender)
    ensures EmitRecord(w, record).sender.fatal <==> w.sender.fatal || |w.sender.queue| == 2_048
  {
  }

  lemma {:induction false} RecordsBounded(w: World, records: seq<Record>)
    requires Bounded(w.sender)
    ensures Bounded(EmitRecords(w, records).sender)
  {
    if records != [] {
      RecordsBounded(w, records[..|records| - 1]);
      RecordBounded(EmitRecords(w, records[..|records| - 1]), records[|records| - 1]);
    }
  }

  lemma StepBounded(w: World, event: Event)
    requires Bounded(w.sender)
    ensures Bounded(Step(w, event).sender)
  {
    match event
    case Emits(emission) =>
      if !w.sender.fatal {
        var block, delivery := Encode(emission), Delivered(emission);
        RecordsBounded(w.(blocks := w.blocks + [block], deliveries := w.deliveries + [delivery]), block);
      }
    case AckArrives =>
      if w.acks != [] {
        DroppedShrinks(w.sender.queue, Acked(w.sender, w.acks[0]).acked);
      }
    case _ =>
  }

  /** The queue bound is fail-closed: past it nothing is emitted or written. */
  lemma FatalIsSilent(w: World, event: Event)
    requires w.sender.fatal && Settled(w)
    ensures var r := Step(w, event);
      r.sender.fatal && r.emitted == w.emitted && r.sender.queue == w.sender.queue && r.worker == w.worker
  {
  }
}
