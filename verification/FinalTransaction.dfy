/**
 One final answer as a control transaction: the chunking encoder of the runner
 and the per-connection assembler of the worker, and the round trip between
 them. Bytes travel as they are; their base64 form is not modelled.
 */
module FinalTransaction {
  import opened Options

  type Byte = x: int | 0 <= x < 256

  const MAX_BYTES := 1_048_576
  const CHUNK_BYTES := 1_536
  const NOTICE_ROOM := 64
  const MAX_CHUNKS := 2_048

  const NOTICE_LENGTH := 51

  /** Byte `k` of two line feeds and "[botmux: final output truncated at control limit]". */
  function NoticeByte(k: nat): Byte
    requires k < NOTICE_LENGTH
  {
    var bytes: seq<Byte> := [
      10, 10, 91, 98, 111, 116, 109, 117, 120, 58, 32, 102, 105, 110, 97, 108, 32, 111, 117, 116, 112, 117, 116, 32,
      116, 114, 117, 110, 99, 97, 116, 101, 100, 32, 97, 116, 32, 99, 111, 110, 116, 114, 111, 108, 32, 108, 105, 109,
      105, 116, 93];
    bytes[k]
  }

  function Notice(): (r: seq<Byte>)
    ensures |r| == NOTICE_LENGTH
  {
    seq(NOTICE_LENGTH, k requires 0 <= k < NOTICE_LENGTH => NoticeByte(k))
  }

  datatype Record =
    | Marker(payload: nat)
    | Start(id: nat, total: nat, truncated: bool, metadata: nat)
    | Chunk(id: nat, index: nat, data: seq<Byte>)
    | End(id: nat, total: nat)

  /** What the runner emits in one go: a plain marker or a whole final. */
  datatype Emission = Note(payload: nat) | Final(id: nat, metadata: nat, content: seq<Byte>)

  /** What the worker applies. */
  datatype Delivery = Noted(payload: nat) | Answered(metadata: nat, truncated: bool, content: seq<Byte>)

  // ---------------------------------------------------------------------------
  // Encoding
  // ---------------------------------------------------------------------------

  function Sent(content: seq<Byte>): seq<Byte> {
    if |content| > MAX_BYTES then content[..MAX_BYTES - NOTICE_ROOM] + Notice() else content
  }

  function Total(length: nat): nat {
    (length + CHUNK_BYTES - 1) / CHUNK_BYTES
  }

  function Min(a: nat, b: nat): nat {
    if a < b then a else b
  }

  /** How many bytes the first `count` chunks hold. */
  function Covered(length: nat, count: nat): nat {
    Min(count * CHUNK_BYTES, length)
  }

  function ChunkAt(content: seq<Byte>, index: nat): seq<Byte>
    requires index < Total(|content|)
  {
    content[index * CHUNK_BYTES..Covered(|content|, index + 1)]
  }

  function Chunks(content: seq<Byte>, count: nat): (r: seq<seq<Byte>>)
    requires count <= Total(|content|)
    ensures |r| == count
  {
    seq(count, index requires 0 <= index < count => ChunkAt(content, index))
  }

  function Encode(e: Emission): (r: seq<Record>)
    ensures r != []
  {
    match e
    case Note(payload) => [Marker(payload)]
    case Final(id, metadata, content) =>
      var sent := Sent(content);
      var total := Total(|sent|);
      [Start(id, total, |content| > MAX_BYTES, metadata)] + ChunkRecords(id, sent, total) + [End(id, total)]
  }

  function ChunkRecords(id: nat, content: seq<Byte>, count: nat): (r: seq<Record>)
    requires count <= Total(|content|)
    ensures |r| == count
  {
    seq(count, index requires 0 <= index < count => Chunk(id, index, ChunkAt(content, index)))
  }

  function Delivered(e: Emission): Delivery {
    match e
    case Note(payload) => Noted(payload)
    case Final(_, metadata, content) => Answered(metadata, |content| > MAX_BYTES, Sent(content))
  }

  /** The encoder's loop. */
  method EncodeFinal(id: nat, metadata: nat, content: seq<Byte>) returns (records: seq<Record>)
    ensures records == Encode(Final(id, metadata, content))
  {
    var truncated := |content| > MAX_BYTES;
    var sent := if truncated then content[..MAX_BYTES - NOTICE_ROOM] + Notice() else content;
    var total := (|sent| + CHUNK_BYTES - 1) / CHUNK_BYTES;
    records := [Start(id, total, truncated, metadata)];
    for index := 0 to total
      invariant records == [Start(id, total, truncated, metadata)] + ChunkRecords(id, sent, index)
    {
      var start := index * CHUNK_BYTES;
      var end := if start + CHUNK_BYTES < |sent| then start + CHUNK_BYTES else |sent|;
      records := records + [Chunk(id, index, sent[start..end])];
      assert ChunkRecords(id, sent, index + 1) == ChunkRecords(id, sent, index) + [Chunk(id, index, sent[start..end])];
    }
    records := records + [End(id, total)];
  }

  /** Chunks are numbered in order, none is empty or over size, and together
      they are the bytes sent: all of an answer that fits, and otherwise its
      first bytes and the notice, never over the limit. */
  lemma ChunksAreSent(content: seq<Byte>)
    ensures var sent := Sent(content); var total := Total(|sent|);
      && Join(Chunks(sent, total)) == sent
      && (forall k :: 0 <= k < total ==> 1 <= |Chunks(sent, total)[k]| <= 1_536)
      && (forall k :: 0 <= k < total - 1 ==> |Chunks(sent, total)[k]| == 1_536)
      && |sent| <= 1_048_576 && total <= 2_048
      && (if |content| <= 1_048_576 then sent == content
          else content[..1_048_576 - 64] <= sent && sent[1_048_576 - 64..] == Notice())
  {
    var sent := Sent(content);
    JoinChunks(sent, Total(|sent|));
    assert |Notice()| <= NOTICE_ROOM;
    assert sent[..|sent|] == sent;
  }

  // ---------------------------------------------------------------------------
  // Assembling
  // ---------------------------------------------------------------------------

  function Join(chunks: seq<seq<Byte>>): seq<Byte> {
    if chunks == [] then [] else Join(chunks[..|chunks| - 1]) + chunks[|chunks| - 1]
  }

  datatype Assembly = Assembly(id: nat, total: nat, truncated: bool, metadata: nat, chunks: seq<seq<Byte>>, bytes: nat)

  datatype Assembled = NotFinal | Accepted(assembly: Assembly) | Complete(delivery: Delivery) | Rejected

  function Accept(active: Option<Assembly>, record: Record): Assembled {
    match record
    case Marker(_) => if active.Some? then Rejected else NotFinal
    case Start(id, total, truncated, metadata) =>
      if active.Some? || total > MAX_CHUNKS then Rejected
      else Accepted(Assembly(id, total, truncated, metadata, [], 0))
    case Chunk(id, index, data) =>
      if active.None? || active.value.id != id then Rejected
      else
        var a := active.value;
        if index != |a.chunks| || index >= a.total || data == [] || |data| > CHUNK_BYTES || a.bytes + |data| > MAX_BYTES then Rejected
        else Accepted(a.(chunks := a.chunks + [data], bytes := a.bytes + |data|))
    case End(id, total) =>
      if active.None? || active.value.id != id || total != active.value.total || |active.value.chunks| != total then Rejected
      else Complete(Answered(active.value.metadata, active.value.truncated, Join(active.value.chunks)))
  }

  /** The worker's assembler; a rejection forgets the open transaction. */
  class FinalAssembler {
    var active: Option<Assembly>

    constructor ()
      ensures active == None
    {
      active := None;
    }

    method AcceptRecord(record: Record) returns (result: Assembled)
      modifies this
      ensures result == Accept(old(active), record)
      ensures active == match result
                        case Accepted(a) => Some(a)
                        case NotFinal => old(active)
                        case _ => None
    {
      match record {
        case Marker(_) =>
          if active.Some? {
            active := None;
            return Rejected;
          }
          return NotFinal;
        case Start(id, total, truncated, metadata) =>
          if active.Some? || total > MAX_CHUNKS {
            active := None;
            return Rejected;
          }
          active := Some(Assembly(id, total, truncated, metadata, [], 0));
          return Accepted(active.value);
        case Chunk(id, index, data) =>
          if active.None? || active.value.id != id || index != |active.value.chunks| || index >= active.value.total
             || |data| == 0 || |data| > CHUNK_BYTES || active.value.bytes + |data| > MAX_BYTES {
            active := None;
            return Rejected;
          }
          active := Some(active.value.(chunks := active.value.chunks + [data], bytes := active.value.bytes + |data|));
          return Accepted(active.value);
        case End(id, total) =>
          if active.None? || active.value.id != id || total != active.value.total || |active.value.chunks| != total {
            active := None;
            return Rejected;
          }
          result := Complete(Answered(active.value.metadata, active.value.truncated, Join(active.value.chunks)));
          active := None;
      }
    }
  }

  lemma {:induction false} JoinChunks(content: seq<Byte>, count: nat)
    requires count <= Total(|content|)
    ensures Join(Chunks(content, count)) == content[..Covered(|content|, count)]
  {
    if count > 0 {
      JoinChunks(content, count - 1);
      assert Chunks(content, count)[..count - 1] == Chunks(content, count - 1);
      assert Covered(|content|, count - 1) == (count - 1) * CHUNK_BYTES;
    }
  }

  /** What the assembler holds after `position` records of `e`. */
  function Partial(e: Emission, position: nat): Option<Assembly>
    requires position < |Encode(e)|
  {
    if position == 0 then None
    else
      var sent := Sent(e.content);
      Some(Assembly(e.id, Total(|sent|), |e.content| > MAX_BYTES, e.metadata,
                    Chunks(sent, position - 1), Covered(|sent|, position - 1)))
  }

  lemma SizeSent(content: seq<Byte>)
    ensures |Sent(content)| <= MAX_BYTES && Total(|Sent(content)|) <= MAX_CHUNKS
  {
    assert |Notice()| <= NOTICE_ROOM;
  }

  /** The records of a final, by position. */
  lemma EncodedStart(e: Emission)
    requires e.Final?
    ensures var total := Total(|Sent(e.content)|);
      && |Encode(e)| == total + 2
      && Encode(e)[0] == Start(e.id, total, |e.content| > MAX_BYTES, e.metadata)
      && Encode(e)[total + 1] == End(e.id, total)
  {
  }

  lemma EncodedChunk(e: Emission, k: nat)
    requires e.Final? && k < Total(|Sent(e.content)|)
    ensures k + 1 < |Encode(e)| && Encode(e)[k + 1] == Chunk(e.id, k, ChunkAt(Sent(e.content), k))
  {
  }

  lemma StartAccepted(e: Emission)
    requires e.Final?
    ensures Accept(None, Start(e.id, Total(|Sent(e.content)|), |e.content| > MAX_BYTES, e.metadata))
         == Accepted(Partial(e, 1).value)
  {
    SizeSent(e.content);
  }

  lemma ChunkAccepted(e: Emission, k: nat)
    requires e.Final? && k < Total(|Sent(e.content)|)
    ensures Accept(Partial(e, k + 1), Chunk(e.id, k, ChunkAt(Sent(e.content), k))) == Accepted(Partial(e, k + 2).value)
  {
    var sent := Sent(e.content);
    SizeSent(e.content);
    assert Chunks(sent, k + 1) == Chunks(sent, k) + [ChunkAt(sent, k)];
    assert Covered(|sent|, k) == k * CHUNK_BYTES;
  }

  lemma EndCompletes(e: Emission)
    requires e.Final?
    ensures var total := Total(|Sent(e.content)|);
      Accept(Partial(e, total + 1), End(e.id, total)) == Complete(Delivered(e))
  {
    ChunksAreSent(e.content);
  }

  predicate Assembles(e: Emission, position: nat)
    requires position < |Encode(e)|
  {
    var result := Accept(Partial(e, position), Encode(e)[position]);
    if position < |Encode(e)| - 1 then result == Accepted(Partial(e, position + 1).value)
    else if e.Note? then result == NotFinal
    else result == Complete(Delivered(e))
  }

  lemma NoteAssembles(e: Emission)
    requires e.Note?
    ensures |Encode(e)| == 1 && Assembles(e, 0)
  {
  }

  lemma StartAssembles(e: Emission)
    requires e.Final?
    ensures Assembles(e, 0)
  {
    EncodedStart(e);
    StartAccepted(e);
  }

  lemma ChunkAssembles(e: Emission, k: nat)
    requires e.Final? && k < Total(|Sent(e.content)|)
    ensures k + 1 < |Encode(e)| && Assembles(e, k + 1)
  {
    EncodedStart(e);
    EncodedChunk(e, k);
    ChunkAccepted(e, k);
  }

  lemma EndAssembles(e: Emission)
    requires e.Final?
    ensures Total(|Sent(e.content)|) + 1 < |Encode(e)| && Assembles(e, Total(|Sent(e.content)|) + 1)
  {
    EncodedStart(e);
    EndCompletes(e);
  }

  /** Fed the records of one emission in order, the assembler accepts each of
      them, and completes exactly at the last one with what was sent. */
  lemma AssemblesInOrder(e: Emission, position: nat)
    requires position < |Encode(e)|
    ensures Assembles(e, position)
  {
    if e.Note? {
      NoteAssembles(e);
    } else {
      EncodedStart(e);
      if position == 0 {
        StartAssembles(e);
      } else if position <= Total(|Sent(e.content)|) {
        ChunkAssembles(e, position - 1);
      } else {
        EndAssembles(e);
      }
    }
  }

  // ---------------------------------------------------------------------------
  // Nothing else completes
  // ---------------------------------------------------------------------------

  /** What the assembler holds after these records: a rejection and a completion
      leave nothing. */
  function Fed(records: seq<Record>): Option<Assembly> {
    if records == [] then None
    else
      match Accept(Fed(records[..|records| - 1]), records[|records| - 1])
      case Accepted(assembly) => Some(assembly)
      case _ => None
  }

  /** The records from `from` on open a transaction and carry its chunks in order. */
  ghost predicate Opens(records: seq<Record>, from: nat, a: Assembly) {
    && from + 1 + |a.chunks| == |records|
    && records[from] == Start(a.id, a.total, a.truncated, a.metadata)
    && (forall k :: 0 <= k < |a.chunks| ==> records[from + 1 + k] == Chunk(a.id, k, a.chunks[k]))
    && (forall k :: 0 <= k < |a.chunks| ==> 1 <= |a.chunks[k]| <= 1_536)
    && |a.chunks| <= a.total <= 2_048 && a.bytes == |Join(a.chunks)| <= 1_048_576
  }

  lemma ChunkOpens(records: seq<Record>, from: nat, a: Assembly, data: seq<Byte>)
    requires Opens(records, from, a) && |a.chunks| < a.total && 1 <= |data| <= 1_536 && a.bytes + |data| <= 1_048_576
    ensures Opens(records + [Chunk(a.id, |a.chunks|, data)], from, a.(chunks := a.chunks + [data], bytes := a.bytes + |data|))
  {
    var more := records + [Chunk(a.id, |a.chunks|, data)];
    assert (a.chunks + [data])[..|a.chunks|] == a.chunks;
    assert forall k :: 0 <= k < |records| ==> more[k] == records[k];
  }

  lemma {:induction false} FedOpens(records: seq<Record>)
    requires Fed(records).Some?
    ensures exists from: nat :: Opens(records, from, Fed(records).value)
  {
    var n := |records| - 1;
    var before := Fed(records[..n]);
    assert records == records[..n] + [records[n]];
    match records[n]
    case Start(id, total, truncated, metadata) => assert Opens(records, n, Fed(records).value);
    case Chunk(id, index, data) =>
      FedOpens(records[..n]);
      var from: nat :| Opens(records[..n], from, before.value);
      ChunkOpens(records[..n], from, before.value, data);
  }

  /** Whatever records arrive, in whatever order: the assembler completes a final
      only when the last ones are one whole transaction, its start, every chunk
      once and in order, and its end, and then delivers just those chunks. */
  lemma {:induction false} CompletesOnlyWhole(records: seq<Record>, record: Record, delivery: Delivery)
    requires Accept(Fed(records), record) == Complete(delivery)
    ensures exists from: nat, a: Assembly :: Opens(records, from, a) && |a.chunks| == a.total
              && record == End(a.id, a.total) && delivery == Answered(a.metadata, a.truncated, Join(a.chunks))
  {
    FedOpens(records);
  }
}
