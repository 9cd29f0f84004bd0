/**
 The two ends of the resumable control channel: the runner's acked marker queue,
 and the worker's contiguity fence, final assembler and replay window.
 */
module ControlChannel {
  import opened Options
  import opened FinalTransaction

  const QUEUE_LIMIT := 2_048

  datatype Signed = Signed(number: nat, record: Record)

  datatype Link = Down | Greeting | Active

  // ---------------------------------------------------------------------------
  // The runner's side
  // ---------------------------------------------------------------------------

  datatype Sender = Sender(issued: nat, acked: nat, sentThrough: nat, queue: seq<Signed>, fatal: bool, link: Link)

  /** Write what was not written on this connection yet, raising `sentThrough`. */
  function Write(queue: seq<Signed>, sentThrough: nat): (seq<Signed>, nat) {
    if queue == [] then ([], sentThrough)
    else if queue[0].number <= sentThrough then Write(queue[1..], sentThrough)
    else
      var (rest, through) := Write(queue[1..], queue[0].number);
      ([queue[0]] + rest, through)
  }

  predicate MayWrite(s: Sender) {
    !s.fatal && s.link.Active?
  }

  function Flush(s: Sender): (Sender, seq<Signed>) {
    if MayWrite(s) then
      var (written, through) := Write(s.queue, s.sentThrough);
      (s.(sentThrough := through), written)
    else (s, [])
  }

  /** A fatal sender's process has exited: nothing more leaves it. */
  function Emit(s: Sender, record: Record): (Sender, seq<Signed>) {
    if s.fatal then (s, [])
    else if |s.queue| >= QUEUE_LIMIT then (s.(fatal := true, link := Down), [])
    else Flush(s.(issued := s.issued + 1, queue := s.queue + [Signed(s.issued + 1, record)]))
  }

  function Connect(s: Sender): Sender {
    if s.fatal || !s.link.Down? then s else s.(link := Greeting, sentThrough := s.acked)
  }

  function Welcome(s: Sender): (Sender, seq<Signed>) {
    if s.fatal || !s.link.Greeting? then (s, []) else Flush(s.(link := Active))
  }

  function Dropped(queue: seq<Signed>, acked: nat): seq<Signed> {
    if queue != [] && queue[0].number <= acked then Dropped(queue[1..], acked) else queue
  }

  /** An ack beyond what this connection sent destroys the connection. */
  function Acked(s: Sender, ack: nat): Sender {
    if s.fatal || !s.link.Active? then s
    else if ack == 0 || ack > s.sentThrough then s.(link := Down)
    else
      var acked := if ack > s.acked then ack else s.acked;
      s.(acked := acked, queue := Dropped(s.queue, acked))
  }

  function Closed(s: Sender): Sender {
    s.(link := Down)
  }

  class ControlSender {
    var controlSeq: nat
    var ackedSeq: nat
    var sentThrough: nat
    var queue: seq<Signed>
    var fatal: bool
    var link: Link

    constructor ()
      ensures View() == Sender(0, 0, 0, [], false, Down)
    {
      controlSeq, ackedSeq, sentThrough, queue, fatal, link := 0, 0, 0, [], false, Down;
    }

    function View(): Sender
      reads this
    {
      Sender(controlSeq, ackedSeq, sentThrough, queue, fatal, link)
    }

    method FlushControlQueue() returns (written: seq<Signed>)
      modifies this`sentThrough
      ensures (View(), written) == Flush(old(View()))
    {
      written := [];
      if fatal || link != Active {
        return;
      }
      ghost var all := Write(queue, sentThrough);
      assert queue[0..] == queue && [] + all.0 == all.0;
      for index := 0 to |queue|
        invariant all.0 == written + Write(queue[index..], sentThrough).0
        invariant all.1 == Write(queue[index..], sentThrough).1
      {
        ghost var rest := queue[index + 1..];
        assert queue[index..][1..] == rest;
        if queue[index].number > sentThrough {
          assert written + ([queue[index]] + Write(rest, queue[index].number).0)
              == written + [queue[index]] + Write(rest, queue[index].number).0;
          written := written + [queue[index]];
          sentThrough := queue[index].number;
        }
      }
      assert written + [] == written;
    }

    method EmitMarker(record: Record) returns (written: seq<Signed>)
      modifies this
      ensures (View(), written) == Emit(old(View()), record)
    {
      written := [];
      if fatal {
        return;
      }
      if |queue| >= QUEUE_LIMIT {
        fatal, link := true, Down;
        return;
      }
      controlSeq := controlSeq + 1;
      queue := queue + [Signed(controlSeq, record)];
      written := FlushControlQueue();
    }

    method ConnectControlSocket()
      modifies this`link, this`sentThrough
      ensures View() == Connect(old(View()))
    {
      if fatal || link != Down {
        return;
      }
      link, sentThrough := Greeting, ackedSeq;
    }

    method HandshakeAccepted() returns (written: seq<Signed>)
      modifies this`link, this`sentThrough
      ensures (View(), written) == Welcome(old(View()))
    {
      written := [];
      if fatal || link != Greeting {
        return;
      }
      link := Active;
      written := FlushControlQueue();
    }

    method AckReceived(ack: nat)
      modifies this`link, this`ackedSeq, this`queue
      ensures View() == Acked(old(View()), ack)
    {
      if fatal || link != Active {
        return;
      }
      if ack == 0 || ack > sentThrough {
        link := Down;
        return;
      }
      if ack > ackedSeq {
        ackedSeq := ack;
      }
      while |queue| > 0 && queue[0].number <= ackedSeq
        modifies this`queue
        invariant Dropped(queue, ackedSeq) == Dropped(old(queue), ackedSeq)
        decreases |queue|
      {
        queue := queue[1..];
      }
    }

    method SocketClosed()
      modifies this`link
      ensures View() == Closed(old(View()))
    {
      link := Down;
    }
  }

  // ---------------------------------------------------------------------------
  // The worker's side
  // ---------------------------------------------------------------------------

  /** The replay window's high-water mark and what was applied. */
  datatype Worker = Worker(highWater: nat, applied: seq<Delivery>)

  /** Per-connection state: the contiguity fence and the assembler. */
  datatype Conn = Conn(previous: Option<nat>, assembly: Option<Assembly>)

  datatype Received = Ack(worker: Worker, conn: Conn, number: nat) | Held(conn: Conn) | Destroyed

  /** `applies` is the verdict of the worker's own handling of a record. */
  function Receive(w: Worker, c: Conn, m: Signed, applies: bool): Received {
    if m.number == 0 || (c.previous.Some? && m.number != c.previous.value + 1) then Destroyed
    else if m.number <= w.highWater then Ack(w, c.(previous := Some(m.number)), m.number)
    else
      match Accept(c.assembly, m.record)
      case Rejected => Destroyed
      case Accepted(assembly) => Held(Conn(Some(m.number), Some(assembly)))
      case NotFinal => Applied(w, Conn(Some(m.number), c.assembly), m.number, Noted(m.record.payload), applies)
      case Complete(delivery) => Applied(w, Conn(Some(m.number), None), m.number, delivery, applies)
  }

  function Applied(w: Worker, c: Conn, number: nat, delivery: Delivery, applies: bool): Received {
    if applies then Ack(Worker(number, w.applied + [delivery]), c, number) else Destroyed
  }

  class ControlReceiver {
    var highWater: nat
    var previous: Option<nat>
    var assembler: FinalAssembler
    ghost var applied: seq<Delivery>

    constructor ()
      ensures fresh(assembler) && Window() == Worker(0, []) && Connection() == Conn(None, None)
    {
      highWater, previous, applied := 0, None, [];
      assembler := new FinalAssembler();
    }

    ghost function Window(): Worker
      reads this
    {
      Worker(highWater, applied)
    }

    function Connection(): Conn
      reads this, assembler
    {
      Conn(previous, assembler.active)
    }

    /** A new authenticated connection starts without history. */
    method Accepted()
      modifies this`previous, assembler
      ensures Connection() == Conn(None, None)
    {
      previous := None;
      assembler.active := None;
    }

    method MarkerReceived(m: Signed, applies: bool) returns (ack: Option<nat>, destroyed: bool)
      modifies this, assembler
      ensures assembler == old(assembler)
      ensures match Receive(old(Window()), old(Connection()), m, applies)
              case Ack(w, c, number) => !destroyed && ack == Some(number) && Window() == w && Connection() == c
              case Held(c) => !destroyed && ack == None && Window() == old(Window()) && Connection() == c
              case Destroyed => destroyed && ack == None && Window() == old(Window())
    {
      ack, destroyed := None, true;
      if m.number == 0 || (previous.Some? && m.number != previous.value + 1) {
        return;
      }
      previous := Some(m.number);
      if m.number <= highWater {
        return Some(m.number), false;
      }
      var result := assembler.AcceptRecord(m.record);
      if result.Rejected? {
        return;
      }
      if result.Accepted? {
        return None, false;
      }
      if !applies {
        return;
      }
      applied := applied + [if result.NotFinal? then Noted(m.record.payload) else result.delivery];
      highWater := m.number;
      return Some(m.number), false;
    }
  }
}
