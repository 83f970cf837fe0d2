/** The delivery protocol: stream connections, datagrams and listeners sharing
    counters, credits and the Ruby workers, as a transition system with one step
    for each operation another task can observe. */
module Delivery {
  import opened Bytes
  import opened Framing
  import Proxy

  // ------------------------------------------------------------------------ values

  type Peer = Option<Proxy.IpAddr>

  datatype Config = Config(
    proxyProtocol: bool,
    maxFrame: nat,
    maxPending: nat,
    perConnection: nat,
    maxConnections: nat,
    udpBuffer: nat)

  /** A framed message: its identity, its bytes and its peer. */
  datatype Message = Message(id: int, body: bytes, peer: Peer)

  /** A handler's answer to one attempt. */
  datatype Verdict = Accepted | Refused | Failed

  datatype Why = Shutdown | WorkersLost | Unattempted

  /** How a message leaves the listeners. */
  datatype Outcome = Delivered | Abandoned(why: Why) | Dropped

  /** Where the task holding a message stands: `Ready` to call `deliver`, inside it
      from `Offering` to `Answered`, then on the way to a retry or out. */
  datatype Stage =
    | Ready
    | Offering
    | Awaiting
    | Answered(verdict: Verdict)
    | TurnedDown
    | Sleeping
    | Counting(outcome: Outcome)
    | Releasing(outcome: Outcome)
    | Freeing(outcome: Outcome)
    | Done(outcome: Outcome)

  /** A message held for delivery: the loop variables `attempt` and `delay`, and
      its history (verdicts against it, times offered to the workers, attempts
      begun since shutdown, milliseconds slept). */
  datatype Hold = Hold(
    msg: Message,
    stage: Stage,
    attempt: nat,
    delay: nat,
    past: seq<Verdict>,
    offered: nat,
    late: nat,
    slept: nat)

  const MIN_REFUSAL_DELAY: nat := 5
  const MAX_REFUSAL_DELAY: nat := 500

  function NewHold(msg: Message): Hold {
    Hold(msg, Ready, 1, MIN_REFUSAL_DELAY, [], 0, 0, 0)
  }

  /** One entry on the worker queue. */
  datatype Offer = Offer(msg: Message, attempt: nat)

  // ---------------------------------------------------------------- shared counters

  /** The shared counters. The same record is used for a change to them and for
      what one task's position accounts for. `credits` is the semaphore,
      `connections` the admission counter, `tracked` the task tracker's count and
      `issued` the number of message ids handed out; `served` (connections past
      admission) is not a counter of the program. */
  datatype Tally = Tally(
    credits: int := 0,
    pending: int := 0,
    delivered: int := 0,
    refused: int := 0,
    errors: int := 0,
    abandoned: int := 0,
    dropped: int := 0,
    connections: int := 0,
    served: int := 0,
    opens: int := 0,
    closes: int := 0,
    tracked: int := 0,
    issued: int := 0)

  const ZERO_TALLY := Tally()

  function Plus(a: Tally, b: Tally): Tally {
    Tally(a.credits + b.credits, a.pending + b.pending, a.delivered + b.delivered, a.refused + b.refused,
          a.errors + b.errors, a.abandoned + b.abandoned, a.dropped + b.dropped,
          a.connections + b.connections, a.served + b.served, a.opens + b.opens, a.closes + b.closes,
          a.tracked + b.tracked, a.issued + b.issued)
  }

  /** What a task can see of the rest of the system. */
  datatype Env = Env(cancelled: bool, shared: Tally)

  // ---------------------------------------------------------- the dispatcher's steps

  datatype HoldStep =
    | Begin                     // call deliver
    | QueueFull                 // try_send found no room; sleep and try again
    | Sent                      // try_send succeeded
    | Disconnected              // try_send found no workers
    | Answer(verdict: Verdict)  // a worker answered
    | AnswerLost                // the worker went away without answering
    | CountVerdict
    | CheckToken                // after a refusal: is shutdown under way?
    | Wake                      // the refusal delay is over
    | CountOutcome              // count an abandoned or dropped message
    | Release                   // release_pending
    | Free                      // drop the message and its permit

  datatype Held = Held(hold: Hold, delta: Tally)

  /** A held message's next step. A datagram (`lost == Dropped`) is dropped where a
      stream message would be retried or abandoned. */
  function HoldNext(lost: Outcome, cancelled: bool, h: Hold, l: HoldStep): Option<Held> {
    match (l, h.stage)
    case (Begin, Ready) =>
      Some(Held(h.(stage := Offering, late := h.late + if cancelled then 1 else 0), ZERO_TALLY))
    case (QueueFull, Offering) => Some(Held(h, ZERO_TALLY))
    case (Sent, Offering) => Some(Held(h.(stage := Awaiting, offered := h.offered + 1), ZERO_TALLY))
    case (Disconnected, Offering) => Some(Held(h.(stage := Counting(lost)), ZERO_TALLY))
    case (Answer(v), Awaiting) => Some(Held(h.(stage := Answered(v)), ZERO_TALLY))
    case (AnswerLost, Awaiting) => Some(Held(h.(stage := Counting(lost)), ZERO_TALLY))
    case (CountVerdict, Answered(Accepted)) =>
      Some(Held(h.(stage := Releasing(Delivered)), Tally(delivered := 1)))
    case (CountVerdict, Answered(v)) =>
      var next := if lost == Dropped then Counting(Dropped) else TurnedDown;
      Some(Held(h.(stage := next, past := h.past + [v]),
                if v == Refused then Tally(refused := 1) else Tally(errors := 1)))
    case (CheckToken, TurnedDown) =>
      Some(Held(h.(stage := if cancelled then Counting(Abandoned(Shutdown)) else Sleeping), ZERO_TALLY))
    case (Wake, Sleeping) =>
      var doubled := h.delay * 2;
      Some(Held(h.(stage := Ready, attempt := h.attempt + 1, slept := h.slept + h.delay,
                   delay := if doubled <= MAX_REFUSAL_DELAY then doubled else MAX_REFUSAL_DELAY), ZERO_TALLY))
    case (CountOutcome, Counting(o)) =>
      Some(Held(h.(stage := Releasing(o)), if o == Dropped then Tally(dropped := 1) else Tally(abandoned := 1)))
    case (Release, Releasing(o)) => Some(Held(h.(stage := Freeing(o)), Tally(pending := -1)))
    case (Free, Freeing(o)) => Some(Held(h.(stage := Done(o)), Tally(credits := 1)))
    case _ => None
  }

  // ------------------------------------------------------------- stream connections

  /** The reader half of `serve_stream`. */
  datatype Reader =
    | HeaderParse
    | HeaderRead
    | Decoding
    | Reading
    | WantCredit(body: bytes)   // at acquire_owned
    | HaveCredit(body: bytes)   // permit in hand, no id yet
    | HaveId(msg: Message)      // not yet in the gauge
    | Sending(msg: Message)     // in the gauge, at the bounded channel
    | Leaving                   // out of the read loop
    | Joining                   // sender dropped, awaiting the delivery task
    | Closing                   // close_stream: counter not yet down
    | CountingClosed            // close_stream: connections_closed not yet up
    | Ending                    // task over but still tracked
    | Gone
    | Unwinding                 // panicked, sender dropped, still tracked
    | Crashed                   // unwound: never through close_stream

  /** `deliver_stream_messages`. */
  datatype Courier = NotStarted | Receiving | Holding(hold: Hold) | Finished

  /** How the framer has fared: still following the stream, past a skipped line, or
      out of sync for good. */
  datatype Fate = Following | Skipped | Broken(reason: RejectReason)

  datatype Conn = Conn(
    ownPeer: Peer,
    peer: Peer,
    reader: Reader,
    eof: bool,
    buffer: bytes,
    framer: FramerState,
    channel: seq<Message>,
    courier: Courier,
    workersGone: bool,
    // history
    received: bytes,         // every byte read from the socket
    header: bytes,           // the PROXY header consumed
    decoded: seq<bytes>,     // every message the framer emitted
    fate: Fate,
    settled: seq<Hold>,      // messages through with, in the order they were settled
    offers: seq<Offer>)      // this connection's entries on the worker queue

  function NewConn(cfg: Config, peer: Peer): Conn {
    Conn(peer, peer, if cfg.proxyProtocol then HeaderParse else Decoding, false, [], FRESH, [],
         if cfg.proxyProtocol then NotStarted else Receiving, false, [], [], [], Following, [], [])
  }

  predicate SenderOpen(c: Conn) {
    c.reader.Decoding? || c.reader.Reading? || c.reader.WantCredit? || c.reader.HaveCredit?
    || c.reader.HaveId? || c.reader.Sending? || c.reader.Leaving?
  }

  datatype ReaderStep =
    | ParseHeader
    | HeaderData(chunk: bytes)
    | HeaderFail              // end of stream, read error or timeout
    | Decode
    | Data(chunk: bytes)
    | Eof
    | Quit                    // read error or idle timeout
    | SeeCancel
    | Acquire
    | AssignId
    | GaugeUp
    | Send
    | SendFailed
    | DropSender
    | Join
    | CloseConn
    | CountClosed
    | Exit
    | Unwind

  datatype Moved<T> = Moved(next: T, delta: Tally)

  function HeaderNext(c: Conn): Conn
    requires c.reader.HeaderParse?
  {
    match Proxy.Parse(c.buffer, Proxy.MAX_PROXY_HEADER_BYTES)
    case Complete(source, length) =>
      c.(reader := Decoding, courier := Receiving, header := c.buffer[..length], buffer := c.buffer[length..],
         peer := if source.Some? then source else c.ownPeer)
    case Incomplete => c.(reader := HeaderRead)
    case Failed(_) => c.(reader := Closing)
  }

  /** One call of `decode` or `decode_eof` and what the read loop makes of it. */
  function DecodeNext(cfg: Config, c: Conn): Conn {
    var turn := DecodeTurn(cfg.maxFrame, c.eof, c.framer, c.buffer);
    var after := c.(framer := turn.state, buffer := turn.rest);
    match turn.out
    case Frame(body) => after.(reader := WantCredit(body), decoded := c.decoded + [body])
    case More => after.(reader := if c.eof then Leaving else Reading)
    case Rejected(error) =>
      if error.fatal then
        after.(reader := Leaving, fate := if c.fate.Following? then Broken(error.reason) else c.fate)
      else after.(fate := if c.fate.Following? then Skipped else c.fate)
    case Panic => after.(reader := Unwinding)
  }

  /** Reading: the header, then the buffer, then the socket. */
  function InputNext(cfg: Config, cancelled: bool, c: Conn, l: ReaderStep): Option<Conn> {
    match l
    case ParseHeader => if c.reader.HeaderParse? then Some(HeaderNext(c)) else None
    case HeaderData(chunk) =>
      if c.reader.HeaderRead? && chunk != [] then
        Some(c.(reader := HeaderParse, buffer := c.buffer + chunk, received := c.received + chunk))
      else None
    case HeaderFail => if c.reader.HeaderRead? then Some(c.(reader := Closing)) else None
    case Decode => if c.reader.Decoding? then Some(DecodeNext(cfg, c)) else None
    case Data(chunk) =>
      if c.reader.Reading? && chunk != [] then
        Some(c.(reader := Decoding, buffer := c.buffer + chunk, received := c.received + chunk))
      else None
    case Eof => if c.reader.Reading? then Some(c.(reader := Decoding, eof := true)) else None
    case Quit => if c.reader.Reading? then Some(c.(reader := Leaving)) else None
    case SeeCancel => if c.reader.Reading? && cancelled then Some(c.(reader := Leaving)) else None
    case _ => None
  }

  /** Handing a message over to the delivery task. */
  function HandoverNext(cfg: Config, shared: Tally, c: Conn, l: ReaderStep): Option<Moved<Conn>> {
    match l
    case Acquire =>
      if c.reader.WantCredit? && shared.credits > 0 then
        Some(Moved(c.(reader := HaveCredit(c.reader.body)), Tally(credits := -1)))
      else None
    case AssignId =>
      if c.reader.HaveCredit? then
        Some(Moved(c.(reader := HaveId(Message(shared.issued + 1, c.reader.body, c.peer))), Tally(issued := 1)))
      else None
    case GaugeUp =>
      if c.reader.HaveId? then Some(Moved(c.(reader := Sending(c.reader.msg)), Tally(pending := 1))) else None
    case Send =>
      if c.reader.Sending? && |c.channel| < cfg.perConnection && !c.courier.Finished? then
        Some(Moved(c.(reader := Decoding, channel := c.channel + [c.reader.msg]), ZERO_TALLY))
      else None
    case SendFailed =>
      // The channel hands the message back and drops it, then it is counted as abandoned.
      if c.reader.Sending? && c.courier.Finished? then
        Some(Moved(c.(reader := Leaving), Tally(credits := 1, pending := -1, abandoned := 1)))
      else None
    case _ => None
  }

  /** Leaving: drop the sender, wait for the delivery task, close. A panic does none of
      this but drop the sender, and leaves the delivery task to itself. */
  function FarewellNext(c: Conn, l: ReaderStep): Option<Moved<Conn>> {
    match l
    case DropSender => if c.reader.Leaving? then Some(Moved(c.(reader := Joining), ZERO_TALLY)) else None
    case Join =>
      if c.reader.Joining? && c.courier.Finished? then Some(Moved(c.(reader := Closing), ZERO_TALLY)) else None
    case CloseConn =>
      if c.reader.Closing? then Some(Moved(c.(reader := CountingClosed), Tally(connections := -1, served := -1)))
      else None
    case CountClosed =>
      if c.reader.CountingClosed? then Some(Moved(c.(reader := Ending), Tally(closes := 1))) else None
    case Exit => if c.reader.Ending? then Some(Moved(c.(reader := Gone), Tally(tracked := -1))) else None
    case Unwind => if c.reader.Unwinding? then Some(Moved(c.(reader := Crashed), Tally(tracked := -1))) else None
    case _ => None
  }

  function ReaderNext(cfg: Config, env: Env, c: Conn, l: ReaderStep): Option<Moved<Conn>> {
    match l
    case Acquire | AssignId | GaugeUp | Send | SendFailed => HandoverNext(cfg, env.shared, c, l)
    case DropSender | Join | CloseConn | CountClosed | Exit | Unwind => FarewellNext(c, l)
    case _ =>
      match InputNext(cfg, env.cancelled, c, l)
      case None => None
      case Some(next) => Some(Moved(next, ZERO_TALLY))
  }

  datatype CourierStep = Recv | RecvClosed | Attend(l: HoldStep)

  function CourierNext(env: Env, c: Conn, l: CourierStep): Option<Moved<Conn>> {
    match (l, c.courier)
    case (Recv, Receiving) =>
      if c.channel == [] then None
      else
        var stage := if c.workersGone then Counting(Abandoned(Unattempted)) else Ready;
        var hold := NewHold(c.channel[0]).(stage := stage);
        Some(Moved(c.(channel := c.channel[1..], courier := Holding(hold)), ZERO_TALLY))
    case (RecvClosed, Receiving) =>
      if c.channel == [] && !SenderOpen(c) then Some(Moved(c.(courier := Finished), ZERO_TALLY)) else None
    case (Attend(step), Holding(h)) =>
      (match HoldNext(Abandoned(WorkersLost), env.cancelled, h, step)
       case None => None
       case Some(held) => Some(Moved(Attended(c, h, step, held.hold), held.delta)))
    case _ => None
  }

  /** Put a held message back in place after a step, or file it when it is done. */
  function Attended(c: Conn, h: Hold, step: HoldStep, next: Hold): Conn {
    if next.stage.Done? then
      c.(courier := Receiving, settled := c.settled + [next],
         workersGone := c.workersGone || next.stage.outcome == Abandoned(WorkersLost))
    else
      c.(courier := Holding(next),
         offers := if step.Sent? then c.offers + [Offer(h.msg, h.attempt)] else c.offers)
  }

  // ----------------------------------------------------------------------- listeners

  /** The admission part of a stream accept loop. */
  datatype StreamListener =
    | Accepting
    | Added(before: int, peer: Peer)  // counter up, its earlier value in hand
    | Undoing                         // over the limit
    | Admitted(peer: Peer)            // within it
    | Opened(peer: Peer)              // connections_opened counted
    | Stopped

  datatype ListenerStep = Accept(peer: Peer) | CheckLimit | Undo | CountOpened | SpawnStream | StopListening

  /** The receive loop of `serve_datagrams`. */
  datatype DatagramListener =
    | DatagramIdle
    | DatagramCredited(body: bytes, peer: Peer)
    | DatagramNamed(msg: Message)
    | DatagramGauged(msg: Message)
    | DatagramStopped

  datatype DatagramListenerStep =
    | Receive(body: bytes, peer: Peer) | NameDatagram | GaugeDatagram | SpawnDatagram | StopReceiving

  /** Every tracked task: accept loops, the datagram loop (with the datagrams it
      turned away for want of a credit), connections and datagrams in delivery. */
  datatype Task =
    | Listener(listener: StreamListener)
    | DatagramLoop(loop: DatagramListener, starved: nat)
    | Serving(conn: Conn)
    | DatagramTask(hold: Hold, over: bool)

  datatype TaskStep =
    | ListenerDo(listen: ListenerStep)
    | DatagramLoopDo(receive: DatagramListenerStep)
    | ReaderDo(read: ReaderStep)
    | CourierDo(carry: CourierStep)
    | DatagramDo(attend: HoldStep)
    | DatagramExit

  datatype Acted = Acted(next: Task, spawned: seq<Task>, delta: Tally)

  function ListenerNext(cfg: Config, env: Env, t: StreamListener, l: ListenerStep): Option<Acted> {
    match (l, t)
    case (Accept(peer), Accepting) =>
      var before := env.shared.connections;
      Some(Acted(Listener(Added(before, peer)), [],
                 Tally(connections := 1, served := if before < cfg.maxConnections then 1 else 0)))
    case (CheckLimit, Added(before, peer)) =>
      Some(Acted(Listener(if before >= cfg.maxConnections then Undoing else Admitted(peer)), [], ZERO_TALLY))
    case (Undo, Undoing) => Some(Acted(Listener(Accepting), [], Tally(connections := -1)))
    case (CountOpened, Admitted(peer)) => Some(Acted(Listener(Opened(peer)), [], Tally(opens := 1)))
    case (SpawnStream, Opened(peer)) =>
      Some(Acted(Listener(Accepting), [Serving(NewConn(cfg, peer))], Tally(tracked := 1)))
    case (StopListening, Accepting) =>
      if env.cancelled then Some(Acted(Listener(Stopped), [], Tally(tracked := -1))) else None
    case _ => None
  }

  function DatagramLoopNext(cfg: Config, env: Env, t: DatagramListener, starved: nat, l: DatagramListenerStep)
    : Option<Acted>
  {
    match (l, t)
    case (Receive(body, peer), DatagramIdle) =>
      // Filling the buffer counts as truncation.
      if |body| >= cfg.udpBuffer then Some(Acted(DatagramLoop(DatagramIdle, starved), [], ZERO_TALLY))
      else if env.shared.credits > 0 then
        Some(Acted(DatagramLoop(DatagramCredited(body, peer), starved), [], Tally(credits := -1)))
      else Some(Acted(DatagramLoop(DatagramIdle, starved + 1), [], Tally(dropped := 1)))
    case (NameDatagram, DatagramCredited(body, peer)) =>
      var msg := Message(env.shared.issued + 1, body, peer);
      Some(Acted(DatagramLoop(DatagramNamed(msg), starved), [], Tally(issued := 1)))
    case (GaugeDatagram, DatagramNamed(msg)) =>
      Some(Acted(DatagramLoop(DatagramGauged(msg), starved), [], Tally(pending := 1)))
    case (SpawnDatagram, DatagramGauged(msg)) =>
      Some(Acted(DatagramLoop(DatagramIdle, starved), [DatagramTask(NewHold(msg), false)], Tally(tracked := 1)))
    case (StopReceiving, DatagramIdle) =>
      if env.cancelled then Some(Acted(DatagramLoop(DatagramStopped, starved), [], Tally(tracked := -1))) else None
    case _ => None
  }

  function TaskNext(cfg: Config, env: Env, t: Task, l: TaskStep): Option<Acted> {
    match (l, t)
    case (ListenerDo(step), Listener(listener)) => ListenerNext(cfg, env, listener, step)
    case (DatagramLoopDo(step), DatagramLoop(loop, starved)) => DatagramLoopNext(cfg, env, loop, starved, step)
    case (ReaderDo(step), Serving(c)) =>
      (match ReaderNext(cfg, env, c, step)
       case None => None
       case Some(m) => Some(Acted(Serving(m.next), [], m.delta)))
    case (CourierDo(step), Serving(c)) =>
      (match CourierNext(env, c, step)
       case None => None
       case Some(m) => Some(Acted(Serving(m.next), [], m.delta)))
    case (DatagramDo(step), DatagramTask(h, over)) =>
      (match HoldNext(Dropped, env.cancelled, h, step)
       case None => None
       case Some(held) => Some(Acted(DatagramTask(held.hold, over), [], held.delta)))
    case (DatagramExit, DatagramTask(h, over)) =>
      if h.stage.Done? && !over then Some(Acted(DatagramTask(h, true), [], Tally(tracked := -1))) else None
    case _ => None
  }

  // ---------------------------------------------------------------------- the system

  /** The counters, every task ever tracked, and the shutdown state. After a drain
      timeout `sweeping` is what the gauge showed until it is added to the abandoned
      counter, and `swept` what has been added. */
  datatype System = System(
    shared: Tally,
    tasks: seq<Task>,
    cancelled: bool,
    timedOut: bool,
    sweeping: Option<int>,
    swept: int)

  datatype Step =
    | Cancel                     // stop_accepting
    | DrainTimeout               // drain gave up waiting: swap the gauge to zero
    | CountSwept                 // add what it showed to the abandoned counter
    | At(i: nat, l: TaskStep)    // one step of one task

  /** Atomic updates; `release_pending` saturates at zero. */
  function Post(shared: Tally, delta: Tally): Tally {
    var sum := Plus(shared, delta);
    if sum.pending < 0 then sum.(pending := 0) else sum
  }

  function Next(cfg: Config, s: System, step: Step): Option<System> {
    match step
    case Cancel => Some(s.(cancelled := true))
    case DrainTimeout =>
      if s.cancelled && !s.timedOut then
        Some(s.(timedOut := true, sweeping := Some(s.shared.pending), shared := s.shared.(pending := 0)))
      else None
    case CountSwept =>
      if s.sweeping.Some? then
        var n := s.sweeping.value;
        Some(s.(sweeping := None, swept := s.swept + n, shared := s.shared.(abandoned := s.shared.abandoned + n)))
      else None
    case At(i, l) =>
      if i >= |s.tasks| then None
      else
        match TaskNext(cfg, Env(s.cancelled, s.shared), s.tasks[i], l)
        case None => None
        case Some(a) =>
          Some(s.(tasks := s.tasks[i := a.next] + a.spawned,
                  shared := Post(s.shared, a.delta)))
  }

  /** `start_listeners`: the accept loops and perhaps a datagram loop, all tracked. */
  function Initial(cfg: Config, streams: nat, datagrams: bool): System {
    var tasks := seq(streams, i => Listener(Accepting)) + if datagrams then [DatagramLoop(DatagramIdle, 0)] else [];
    System(Tally(credits := cfg.maxPending, tracked := |tasks|), tasks, false, false, None, 0)
  }

  /** Every interleaving: `run` takes the system from `s` to the result. */
  function Execute(cfg: Config, s: System, run: seq<Step>): Option<System>
    decreases |run|
  {
    if run == [] then Some(s)
    else
      match Execute(cfg, s, run[..|run| - 1])
      case None => None
      case Some(before) => Next(cfg, before, run[|run| - 1])
  }
}
