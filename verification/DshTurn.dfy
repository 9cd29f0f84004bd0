/**
 One turn of the dsh runner: notifications are buffered until the acknowledged
 message's enqueue receipt is seen, everything before it is dropped, and the
 turn settles at the first idle after it, whenever the acknowledgement arrives.
 */
module DshTurn {
  import opened Options

  type Id = nat

  datatype Block = TextBlock(text: string) | OtherBlock

  /** A usage report; None stands for a field that is missing or no integer. */
  datatype RawUsage = RawUsage(input: Option<int>, output: Option<int>, cacheRead: Option<int>, cacheWrite: Option<int>)

  datatype Usage = Usage(input: nat, output: nat, cacheRead: nat, cacheCreate: nat)

  datatype Event =
    | Spliced(inserted: seq<Id>)
    | AssistantMessage(blocks: Option<seq<Block>>, usage: Option<RawUsage>)
    | TurnFailed(message: string)
    | OtherEvent

  datatype Note = SessionEvent(event: Event) | Idle | OtherStatus

  /** What the turn's final is built from. */
  datatype Capture = Capture(text: string, usage: Option<Usage>, error: Option<string>)

  // ---------------------------------------------------------------------------
  // Reference: a turn's outcome as a property of the whole stream
  // ---------------------------------------------------------------------------

  function NonNegative(field: Option<int>): Option<nat> {
    if field.Some? && field.value >= 0 then Some(field.value) else None
  }

  function OrZero(field: Option<nat>): nat {
    if field.Some? then field.value else 0
  }

  function NormalizeUsage(raw: Option<RawUsage>): Option<Usage> {
    if raw.None? || NonNegative(raw.value.input).None? || NonNegative(raw.value.output).None? then None
    else Some(Usage(NonNegative(raw.value.input).value, NonNegative(raw.value.output).value,
                    OrZero(NonNegative(raw.value.cacheRead)), OrZero(NonNegative(raw.value.cacheWrite))))
  }

  function AddUsage(a: Usage, b: Usage): Usage {
    Usage(a.input + b.input, a.output + b.output, a.cacheRead + b.cacheRead, a.cacheCreate + b.cacheCreate)
  }

  function TextOf(blocks: seq<Block>): string {
    if blocks == [] then ""
    else
      var last := blocks[|blocks| - 1];
      TextOf(blocks[..|blocks| - 1]) + (if last.TextBlock? then last.text else "")
  }

  predicate IsMessage(note: Note) {
    note.SessionEvent? && note.event.AssistantMessage?
  }

  /** The text of the last assistant message that has content blocks. */
  function LastText(notes: seq<Note>): string {
    if notes == [] then ""
    else
      var last := notes[|notes| - 1];
      if IsMessage(last) && last.event.blocks.Some? then TextOf(last.event.blocks.value) else LastText(notes[..|notes| - 1])
  }

  /** The sum of every well-formed usage report, if there is one. */
  function UsageTotal(notes: seq<Note>): Option<Usage> {
    if notes == [] then None
    else
      var before := UsageTotal(notes[..|notes| - 1]);
      var last := notes[|notes| - 1];
      var usage := if IsMessage(last) then NormalizeUsage(last.event.usage) else None;
      if usage.None? then before else if before.None? then usage else Some(AddUsage(before.value, usage.value))
  }

  function LastError(notes: seq<Note>): Option<string> {
    if notes == [] then None
    else
      var last := notes[|notes| - 1];
      if last.SessionEvent? && last.event.TurnFailed?
      then Some(if last.event.message == "" then "turn failed (error)" else last.event.message)
      else LastError(notes[..|notes| - 1])
  }

  function Captured(notes: seq<Note>): Capture {
    Capture(LastText(notes), UsageTotal(notes), LastError(notes))
  }

  // ---------------------------------------------------------------------------
  // What a capture adds up to
  // ---------------------------------------------------------------------------

  predicate Counts(field: Option<int>) {
    field.Some? && field.value >= 0
  }

  /** The usage reports whose input and output counts can be added up, in order. */
  function Reports(notes: seq<Note>): seq<RawUsage> {
    if notes == [] then []
    else
      var before, last := Reports(notes[..|notes| - 1]), notes[|notes| - 1];
      if IsMessage(last) && last.event.usage.Some? && Counts(last.event.usage.value.input) && Counts(last.event.usage.value.output)
      then before + [last.event.usage.value] else before
  }

  /** The sum of one field; a report that does not count there adds nothing. */
  function Sum(reports: seq<RawUsage>, field: RawUsage -> Option<int>): int {
    if reports == [] then 0
    else
      var last := field(reports[|reports| - 1]);
      Sum(reports[..|reports| - 1], field) + (if Counts(last) then last.value else 0)
  }

  /** Each field of the total is the sum of that field over the reports. */
  lemma {:induction false} UsageIsSummed(notes: seq<Note>)
    ensures var total, reports := UsageTotal(notes), Reports(notes);
      && (total.Some? <==> reports != [])
      && (total.Some? ==>
            && total.value.input == Sum(reports, (r: RawUsage) => r.input)
            && total.value.output == Sum(reports, (r: RawUsage) => r.output)
            && total.value.cacheRead == Sum(reports, (r: RawUsage) => r.cacheRead)
            && total.value.cacheCreate == Sum(reports, (r: RawUsage) => r.cacheWrite))
  {
    if notes != [] {
      var n := |notes| - 1;
      UsageIsSummed(notes[..n]);
      var before, reports := Reports(notes[..n]), Reports(notes);
      if reports != before {
        assert reports[..|before|] == before;
      }
    }
  }

  lemma {:induction false} TextDistributes(blocks: seq<Block>, more: seq<Block>)
    ensures TextOf(blocks + more) == TextOf(blocks) + TextOf(more)
  {
    if more == [] {
      assert blocks + more == blocks;
    } else {
      var n := |more| - 1;
      assert (blocks + more)[..|blocks| + n] == blocks + more[..n];
      TextDistributes(blocks, more[..n]);
    }
  }

  /** The text of a message is the texts of its text blocks, in order and without
      a separator. */
  lemma TextIsJoined(blocks: seq<Block>, more: seq<Block>, text: string)
    ensures TextOf([]) == "" && TextOf([OtherBlock]) == "" && TextOf([TextBlock(text)]) == text
    ensures TextOf(blocks + more) == TextOf(blocks) + TextOf(more)
  {
    assert [OtherBlock][..0] == [] && [TextBlock(text)][..0] == [];
    TextDistributes(blocks, more);
  }

  // ---------------------------------------------------------------------------
  // Which part of the stream is a turn's own
  // ---------------------------------------------------------------------------

  predicate IsReceipt(note: Note, id: Id) {
    note.SessionEvent? && note.event.Spliced? && id in note.event.inserted
  }

  predicate FirstReceipt(notes: seq<Note>, at: nat, id: Id) {
    at < |notes| && IsReceipt(notes[at], id) && forall k :: 0 <= k < at ==> !IsReceipt(notes[k], id)
  }

  predicate FirstIdle(notes: seq<Note>, at: nat) {
    at < |notes| && notes[at].Idle? && forall k :: 0 <= k < at ==> !notes[k].Idle?
  }

  /** The outcome of a turn over the whole stream: what was captured strictly
      between the first receipt of its message and the first idle after it. */
  ghost predicate Outcome(notes: seq<Note>, id: Id, capture: Capture) {
    exists receipt: nat :: FirstReceipt(notes, receipt, id) && SettlesWith(notes[receipt + 1..], capture)
  }

  ghost predicate SettlesWith(after: seq<Note>, capture: Capture) {
    exists idle: nat :: FirstIdle(after, idle) && capture == Captured(after[..idle])
  }

  // ---------------------------------------------------------------------------
  // The turn as it is stepped through
  // ---------------------------------------------------------------------------

  /** `settled` is what was stashed when the turn went idle. */
  datatype Turn = Turn(messageId: Option<Id>, pending: seq<Note>, receipt: bool, capture: Capture, settled: Option<Capture>)

  const FRESH := Turn(None, [], false, Capture("", None, None), None)

  function Apply(c: Capture, event: Event): Capture {
    match event
    case AssistantMessage(blocks, usage) =>
      var normalized := NormalizeUsage(usage);
      c.(text := if blocks.Some? then TextOf(blocks.value) else c.text,
         usage := if normalized.None? then c.usage
                  else if c.usage.None? then normalized
                  else Some(AddUsage(c.usage.value, normalized.value)))
    case TurnFailed(message) => c.(error := Some(if message == "" then "turn failed (error)" else message))
    case _ => c
  }

  function Process(t: Turn, note: Note): Turn {
    match note
    case SessionEvent(event) => t.(capture := Apply(t.capture, event))
    case Idle => if t.settled.None? then t.(settled := Some(t.capture)) else t
    case OtherStatus => t
  }

  function ProcessAll(t: Turn, notes: seq<Note>): Turn {
    if notes == [] then t else Process(ProcessAll(t, notes[..|notes| - 1]), notes[|notes| - 1])
  }

  function FindReceipt(pending: seq<Note>, id: Id): (r: Option<nat>)
    ensures r.Some? ==> FirstReceipt(pending, r.value, id)
    ensures r.None? ==> forall k :: 0 <= k < |pending| ==> !IsReceipt(pending[k], id)
  {
    if pending == [] then None
    else
      var n := |pending| - 1;
      var before := FindReceipt(pending[..n], id);
      assert forall k :: 0 <= k < n ==> pending[..n][k] == pending[k];
      if before.Some? then before else if IsReceipt(pending[n], id) then Some(n) else None
  }

  function Claim(t: Turn): Turn {
    if t.receipt || t.messageId.None? then t
    else
      var at := FindReceipt(t.pending, t.messageId.value);
      if at.None? then t else ProcessAll(t.(receipt := true, pending := []), t.pending[at.value + 1..])
  }

  /** A settled turn is no longer active: what arrives for it is dropped. */
  function Handle(t: Turn, note: Note): Turn {
    if t.settled.Some? then t
    else if !t.receipt then Claim(t.(pending := t.pending + [note]))
    else Process(t, note)
  }

  function Ack(t: Turn, id: Id): Turn {
    if t.settled.Some? then t else Claim(t.(messageId := Some(id)))
  }

  function HandleAll(t: Turn, notes: seq<Note>): Turn {
    if notes == [] then t else Handle(HandleAll(t, notes[..|notes| - 1]), notes[|notes| - 1])
  }

  /** The acknowledgement arrives after the first `ackAt` notifications. */
  function Run(notes: seq<Note>, ackAt: nat, id: Id): Turn
    requires ackAt <= |notes|
  {
    HandleAll(Ack(HandleAll(FRESH, notes[..ackAt]), id), notes[ackAt..])
  }

  // ---------------------------------------------------------------------------
  // Stepping agrees with the reference
  // ---------------------------------------------------------------------------

  /** The outcome of what follows the receipt, stepwise. */
  function Settlement(after: seq<Note>): Option<Capture> {
    if after == [] then None
    else
      var before := Settlement(after[..|after| - 1]);
      if before.Some? then before
      else if after[|after| - 1].Idle? then Some(Captured(after[..|after| - 1]))
      else None
  }

  lemma {:induction false} SettlementIsFirstIdle(after: seq<Note>)
    ensures Settlement(after).None? ==> forall k :: 0 <= k < |after| ==> !after[k].Idle?
    ensures Settlement(after).Some? ==> SettlesWith(after, Settlement(after).value)
  {
    if after != [] {
      var n := |after| - 1;
      SettlementIsFirstIdle(after[..n]);
      assert forall k :: 0 <= k < n ==> after[..n][k] == after[k];
      if Settlement(after[..n]).Some? {
        var idle: nat :| FirstIdle(after[..n], idle) && Settlement(after[..n]).value == Captured(after[..n][..idle]);
        assert after[..n][..idle] == after[..idle];
        assert FirstIdle(after, idle);
      } else if after[n].Idle? {
        assert FirstIdle(after, n);
      }
    }
  }

  /** The turn has seen exactly `after` since its receipt. */
  ghost predicate Follows(t: Turn, after: seq<Note>) {
    t.receipt && t.settled == Settlement(after) && (t.settled.None? ==> t.capture == Captured(after))
  }

  lemma ProcessFollows(t: Turn, after: seq<Note>, note: Note)
    requires Follows(t, after)
    ensures Follows(Process(t, note), after + [note])
    ensures Follows(Handle(t, note), after + [note])
  {
    assert (after + [note])[..|after|] == after;
  }

  lemma {:induction false} ProcessAllFollows(t: Turn, notes: seq<Note>)
    requires Follows(t, [])
    ensures Follows(ProcessAll(t, notes), notes)
  {
    if notes != [] {
      var n := |notes| - 1;
      ProcessAllFollows(t, notes[..n]);
      ProcessFollows(ProcessAll(t, notes[..n]), notes[..n], notes[n]);
      assert notes == notes[..n] + [notes[n]];
    }
  }

  /** The turn has seen `notes` and knows its message id. */
  ghost predicate Seen(t: Turn, notes: seq<Note>, id: Id) {
    var at := FindReceipt(notes, id);
    if at.None? then t == FRESH.(messageId := Some(id), pending := notes) else Follows(t, notes[at.value + 1..])
  }

  lemma FindMore(notes: seq<Note>, note: Note, id: Id)
    ensures FindReceipt(notes + [note], id)
         == if FindReceipt(notes, id).Some? then FindReceipt(notes, id) else if IsReceipt(note, id) then Some(|notes|) else None
  {
    assert (notes + [note])[..|notes|] == notes;
  }

  lemma ClaimSees(notes: seq<Note>, id: Id)
    ensures Seen(Claim(FRESH.(messageId := Some(id), pending := notes)), notes, id)
  {
    var at := FindReceipt(notes, id);
    if at.Some? {
      var t := FRESH.(messageId := Some(id), receipt := true, pending := []);
      assert Follows(t, []);
      ProcessAllFollows(t, notes[at.value + 1..]);
    }
  }

  lemma HandleSees(t: Turn, notes: seq<Note>, note: Note, id: Id)
    requires Seen(t, notes, id)
    ensures Seen(Handle(t, note), notes + [note], id)
  {
    FindMore(notes, note, id);
    var at := FindReceipt(notes, id);
    if at.Some? {
      ProcessFollows(t, notes[at.value + 1..], note);
      assert (notes + [note])[at.value + 1..] == notes[at.value + 1..] + [note];
    } else {
      ClaimSees(notes + [note], id);
    }
  }

  lemma OneMoreSeen(t: Turn, seen: seq<Note>, note: Note, notes: seq<Note>, id: Id)
    requires Seen(t, seen, id) && notes == seen + [note]
    ensures Seen(Handle(t, note), notes, id)
  {
    HandleSees(t, seen, note, id);
  }

  lemma {:induction false} HandleAllSees(t: Turn, notes: seq<Note>, more: seq<Note>, id: Id)
    requires Seen(t, notes, id)
    ensures Seen(HandleAll(t, more), notes + more, id)
  {
    if more != [] {
      var n := |more| - 1;
      HandleAllSees(t, notes, more[..n], id);
      assert notes + more == notes + more[..n] + [more[n]];
      OneMoreSeen(HandleAll(t, more[..n]), notes + more[..n], more[n], notes + more, id);
    } else {
      assert notes + more == notes;
    }
  }

  predicate Unacked(t: Turn) {
    t.messageId.None? && !t.receipt && t.settled.None?
  }

  lemma OneBeforeAck(t: Turn, note: Note)
    requires Unacked(t)
    ensures Handle(t, note) == t.(pending := t.pending + [note])
  {
  }

  lemma {:induction false} BeforeAck(t: Turn, notes: seq<Note>)
    requires Unacked(t)
    ensures HandleAll(t, notes) == t.(pending := t.pending + notes)
  {
    if notes == [] {
      assert t.pending + notes == t.pending;
    } else {
      var before, last := notes[..|notes| - 1], notes[|notes| - 1];
      BeforeAck(t, before);
      OneBeforeAck(HandleAll(t, before), last);
      assert t.pending + before + [last] == t.pending + notes;
    }
  }

  lemma AckSees(notes: seq<Note>, id: Id)
    ensures Seen(Ack(HandleAll(FRESH, notes), id), notes, id)
  {
    BeforeAck(FRESH, notes);
    assert FRESH.pending + notes == notes;
    ClaimSees(notes, id);
  }

  lemma RunSees(notes: seq<Note>, ackAt: nat, id: Id)
    requires ackAt <= |notes|
    ensures Seen(Run(notes, ackAt, id), notes, id)
  {
    AckSees(notes[..ackAt], id);
    HandleAllSees(Ack(HandleAll(FRESH, notes[..ackAt]), id), notes[..ackAt], notes[ackAt..], id);
    assert notes[..ackAt] + notes[ackAt..] == notes;
  }

  // ---------------------------------------------------------------------------
  // What a dsh turn promises
  // ---------------------------------------------------------------------------

  /** For every stream and every arrival point of the acknowledgement, the turn
      settles exactly when the reference has an outcome, and with that outcome. */
  lemma TurnSettlesAsReferenced(notes: seq<Note>, ackAt: nat, id: Id, capture: Capture)
    requires ackAt <= |notes|
    ensures Run(notes, ackAt, id).settled == Some(capture) <==> Outcome(notes, id, capture)
  {
    RunSees(notes, ackAt, id);
    var at := FindReceipt(notes, id);
    if at.Some? {
      SettlementExactly(notes[at.value + 1..], capture);
      OneReceipt(notes, at.value, id);
    }
  }

  lemma SettlementExactly(after: seq<Note>, capture: Capture)
    ensures Settlement(after) == Some(capture) <==> SettlesWith(after, capture)
  {
    SettlementIsFirstIdle(after);
    OneIdle(after);
  }

  lemma OneReceipt(notes: seq<Note>, at: nat, id: Id)
    requires FirstReceipt(notes, at, id)
    ensures forall receipt: nat :: FirstReceipt(notes, receipt, id) ==> receipt == at
  {
  }

  lemma OneIdle(after: seq<Note>)
    ensures forall i: nat, j: nat :: FirstIdle(after, i) && FirstIdle(after, j) ==> i == j
  {
  }

  /** When the acknowledgement arrives makes no difference at all. */
  lemma AckPositionDoesNotMatter(notes: seq<Note>, early: nat, late: nat, id: Id)
    requires early <= |notes| && late <= |notes|
    ensures Run(notes, early, id).settled == Run(notes, late, id).settled
  {
    RunSees(notes, early, id);
    RunSees(notes, late, id);
  }

  /** Nothing before the receipt, in particular no stale idle, has any effect. */
  lemma BeforeReceiptDoesNotMatter(stale: seq<Note>, notes: seq<Note>, ackAt: nat, id: Id)
    requires ackAt <= |stale + notes|
    requires forall note :: note in stale && note.SessionEvent? && note.event.Spliced? ==> id !in note.event.inserted
    ensures Run(stale + notes, ackAt, id).settled == Run(notes, 0, id).settled
  {
    RunSees(stale + notes, ackAt, id);
    RunSees(notes, 0, id);
    StaleReceipt(stale, notes, id);
    var at := FindReceipt(notes, id);
    if at.Some? {
      assert (stale + notes)[|stale| + at.value + 1..] == notes[at.value + 1..];
    }
  }

  lemma {:induction false} StaleReceipt(stale: seq<Note>, notes: seq<Note>, id: Id)
    requires forall k :: 0 <= k < |stale| ==> !IsReceipt(stale[k], id)
    ensures FindReceipt(stale + notes, id)
         == if FindReceipt(notes, id).Some? then Some(|stale| + FindReceipt(notes, id).value) else None
  {
    if notes == [] {
      assert stale + notes == stale;
      assert FindReceipt(stale, id).None?;
    } else {
      var n := |notes| - 1;
      StaleReceipt(stale, notes[..n], id);
      FindMore(stale + notes[..n], notes[n], id);
      FindMore(notes[..n], notes[n], id);
      assert stale + notes == stale + notes[..n] + [notes[n]] && notes == notes[..n] + [notes[n]];
    }
  }

  // ---------------------------------------------------------------------------
  // The runner, updated in place
  // ---------------------------------------------------------------------------

  class PendingTurn {
    var messageId: Option<Id>
    var pending: seq<Note>
    var receiptReceived: bool
    var textBuffer: string
    var usage: Option<Usage>
    var turnError: Option<string>

    constructor ()
      ensures messageId.None? && pending == [] && !receiptReceived && textBuffer == "" && usage.None? && turnError.None?
    {
      messageId, pending, receiptReceived, textBuffer, usage, turnError := None, [], false, "", None, None;
    }

    function Payload(): Capture
      reads this
    {
      Capture(textBuffer, usage, turnError)
    }

    method HandleSessionEvent(event: Event)
      modifies this`textBuffer, this`usage, this`turnError
      ensures Payload() == Apply(old(Payload()), event)
    {
      match event {
        case TurnFailed(message) =>
          turnError := Some(if message == "" then "turn failed (error)" else message);
        case AssistantMessage(blocks, raw) =>
          if blocks.Some? {
            textBuffer := JoinText(blocks.value);
          }
          var normalized := NormalizeUsage(raw);
          if normalized.Some? {
            usage := if usage.Some? then Some(AddUsage(usage.value, normalized.value)) else normalized;
          }
        case _ =>
      }
    }
  }

  /** Text blocks are joined without a separator; other blocks are skipped. */
  method JoinText(blocks: seq<Block>) returns (text: string)
    ensures text == TextOf(blocks)
  {
    text := "";
    for k := 0 to |blocks|
      invariant text == TextOf(blocks[..k])
    {
      assert blocks[..k + 1][..k] == blocks[..k];
      if blocks[k].TextBlock? {
        text := text + blocks[k].text;
      }
    }
    assert blocks[..|blocks|] == blocks;
  }

  /** `turn` is the turn under way; it stays active until it settles, when its
      payload is stashed. */
  class DshRunner {
    const turn: PendingTurn
    var activeTurn: PendingTurn?
    var lastTurn: Capture

    ghost predicate Valid()
      reads this
    {
      activeTurn == null || activeTurn == turn
    }

    ghost function View(): Turn
      reads this, turn
    {
      Turn(turn.messageId, turn.pending, turn.receiptReceived, turn.Payload(), if activeTurn == null then Some(lastTurn) else None)
    }

    constructor ()
      ensures Valid() && fresh(turn) && View() == FRESH
    {
      var started := new PendingTurn();
      turn, activeTurn, lastTurn := started, started, Capture("", None, None);
    }

    method ProcessTurnNotification(note: Note)
      requires Valid()
      modifies this, turn
      ensures Valid() && View() == Process(old(View()), note)
    {
      match note {
        case SessionEvent(event) => turn.HandleSessionEvent(event);
        case Idle =>
          if activeTurn == turn {
            activeTurn := null;
            lastTurn := turn.Payload();
          }
        case OtherStatus =>
      }
    }

    /** Scan the buffer for the receipt, then replay only what follows it. */
    method TryClaimReceipt()
      requires Valid()
      modifies this, turn
      ensures Valid() && View() == Claim(old(View()))
    {
      if turn.receiptReceived || turn.messageId.None? {
        return;
      }
      var pending := turn.pending;
      var at := LocateReceipt(pending, turn.messageId.value);
      if at.None? {
        return;
      }
      turn.receiptReceived := true;
      turn.pending := [];
      var queued := pending[at.value + 1..];
      ghost var start := View();
      for k := 0 to |queued|
        invariant Valid() && View() == ProcessAll(start, queued[..k])
      {
        assert queued[..k + 1][..k] == queued[..k];
        ProcessTurnNotification(queued[k]);
      }
      assert queued[..|queued|] == queued;
    }

    method LocateReceipt(pending: seq<Note>, id: Id) returns (at: Option<nat>)
      ensures at == FindReceipt(pending, id)
    {
      for k := 0 to |pending|
        invariant FindReceipt(pending[..k], id).None?
      {
        assert pending[..k + 1] == pending[..k] + [pending[k]];
        FindMore(pending[..k], pending[k], id);
        if IsReceipt(pending[k], id) {
          FoundStays(pending, k + 1, id);
          return Some(k);
        }
      }
      assert pending[..|pending|] == pending;
      at := None;
    }

    method HandleNotification(note: Note)
      requires Valid()
      modifies this, turn
      ensures Valid() && View() == Handle(old(View()), note)
    {
      if activeTurn == null {
        return;
      }
      if !turn.receiptReceived {
        turn.pending := turn.pending + [note];
        TryClaimReceipt();
        return;
      }
      ProcessTurnNotification(note);
    }

    method PromptAcknowledged(id: Id)
      requires Valid()
      modifies this, turn
      ensures Valid() && View() == Ack(old(View()), id)
    {
      if activeTurn != null {
        turn.messageId := Some(id);
        TryClaimReceipt();
      }
    }
  }

  lemma {:induction false} FoundStays(notes: seq<Note>, count: nat, id: Id)
    requires count <= |notes| && FindReceipt(notes[..count], id).Some?
    ensures FindReceipt(notes, id) == FindReceipt(notes[..count], id)
  {
    if count < |notes| {
      var n := |notes| - 1;
      assert notes[..n][..count] == notes[..count];
      FoundStays(notes[..n], count, id);
    } else {
      assert notes[..count] == notes;
    }
  }

  /** A whole turn of the runner, acknowledged after `ackAt` notifications. */
  method Drive(notes: seq<Note>, ackAt: nat, id: Id) returns (settled: Option<Capture>)
    requires ackAt <= |notes|
    ensures settled == Run(notes, ackAt, id).settled
  {
    var runner := new DshRunner();
    for k := 0 to ackAt
      invariant runner.Valid() && runner.View() == HandleAll(FRESH, notes[..k])
      invariant fresh(runner) && fresh(runner.turn)
    {
      assert notes[..k + 1][..k] == notes[..k];
      runner.HandleNotification(notes[k]);
    }
    runner.PromptAcknowledged(id);
    ghost var acknowledged := runner.View();
    var rest := notes[ackAt..];
    for k := 0 to |rest|
      invariant runner.Valid() && runner.View() == HandleAll(acknowledged, rest[..k])
      invariant fresh(runner) && fresh(runner.turn)
    {
      assert rest[..k + 1][..k] == rest[..k];
      runner.HandleNotification(rest[k]);
    }
    assert rest[..|rest|] == rest;
    settled := if runner.activeTurn == null then Some(runner.lastTurn) else None;
  }
}
